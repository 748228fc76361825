/** The board side of the bridge: what is staged, what is believed, and what it authors. */
module PitchBoard {
  import opened Prelude
  import opened PitchState
  import PitchIntents

  ghost predicate NoBoardIntent(pending: map<Degree, Intent>) {
    forall d :: d in pending ==> pending[d].source == FromHost
  }

  /** A staged target is canonical, armed, and never races a board edit in flight. */
  ghost predicate TargetInv(env: Env, s: Pitches) {
    && (s.board.target.Some? ==> s.board.target.value == Canonical(env, s) && NoBoardIntent(s.pending))
    && (s.board.retry <==> s.board.target.Some?)
  }

  ghost predicate SessionInv(b: Board, session: Session) {
    && (b.confirmed.Some? ==> b.confirmed.value in session.reported)
    && PitchIntents.Increasing(session.revisions)
    && b.revision == (if session.revisions == [] then None else Some(session.revisions[|session.revisions| - 1]))
  }

  // ---- Targets ----------------------------------------------------------------

  /** Staging repairs the target whatever it was, as long as timer and target agree. */
  lemma StageTargets(env: Env, s: Pitches)
    requires s.board.retry <==> s.board.target.Some?
    ensures TargetInv(env, Stage(env, s))
  {
  }

  lemma BoardFrameTargets(env: Env, s: Pitches, frame: Frame, accept: bool)
    requires TargetInv(env, s)
    ensures TargetInv(env, BoardFrame(env, s, frame, accept).0)
  {
    if frame.Snapshot? {
      StageTargets(env, s.(board := s.board.(revision := Some(frame.revision)).(confirmed := Some(frame.config))));
    }
  }

  lemma ApplyIntentTargets(env: Env, s: Pitches, pitch: Pitch, active: bool, accept: bool)
    requires TargetInv(env, s)
    ensures TargetInv(env, ApplyIntent(s, pitch, active, accept).0)
  {
    if accept && s.nextToken != MAX_TOKEN {
      var entries := Entries(s.nextToken, FromHost, [(pitch, active)]);
      forall d | d in Track(s.pending, entries) && NoBoardIntent(s.pending)
        ensures Track(s.pending, entries)[d].source == FromHost
      {
        assert entries[..0] == [];
        assert Track(s.pending, entries) == s.pending[entries[0].degree := entries[0].intent];
      }
    }
  }

  lemma KeyTargets(env: Env, s: Pitches, e: Event)
    requires TargetInv(env, s) && (e.KeyDown? || e.KeyUp?)
    ensures TargetInv(env, Handle(env, s, e).0)
  {
    var pitch := PitchForMidi(e.note);
    if e.KeyDown? {
      var s1 := s.(held := s.held + {e.note});
      ApplyIntentTargets(env, s1, pitch, true, e.accept);
      ApplyIntentTargets(env, s1, pitch, false, e.accept);
    } else {
      ApplyIntentTargets(env, s.(held := s.held - {e.note}), pitch, false, e.accept);
    }
  }

  lemma RoomSetTargets(env: Env, s: Pitches, room: SharedSet)
    requires TargetInv(env, s)
    ensures TargetInv(env, RoomSet(env, s, room))
  {
    if s.room != room {
      StageTargets(env, ApplyRoom(s, room));
    }
  }

  lemma HandleTargets(env: Env, s: Pitches, e: Event)
    requires TargetInv(env, s)
    ensures TargetInv(env, Handle(env, s, e).0)
  {
    match e {
      case KeyDown(_, _, _) => KeyTargets(env, s, e);
      case KeyUp(_, _, _) => KeyTargets(env, s, e);
      case RoomLink(_) => StageTargets(env, Untargeted(s.(pending := map[])));
      case RoomSelected => StageTargets(env, Untargeted(s.(pending := map[])));
      case BoardLink(_) => StageTargets(env, s.(board := s.board.(confirmed := None, revision := None)));
      case FromBoardFrame(frame, accept) => BoardFrameTargets(env, s, frame, accept);
      case IntentApplied(_) =>
      case IntentRejected(token) => StageTargets(env, Reject(s, token));
      case IntentReset(through) => StageTargets(env, AbandonThrough(s, through));
      case RoomPitchSet(room) => RoomSetTargets(env, s, room);
      case FromRoomFrame(frame) =>
        StageTargets(env, if frame.Run? || frame.Edit? then s.(roomConfig := frame.config) else s);
      case TargetTimer(_, _) =>
    }
  }

  // ---- Sessions ---------------------------------------------------------------

  lemma BoardFrameSession(env: Env, s: Pitches, session: Session, frame: Frame, accept: bool)
    requires SessionInv(s.board, session)
    ensures SessionInv(BoardFrame(env, s, frame, accept).0.board, Heard(s, session, FromBoardFrame(frame, accept)))
  {
  }

  /** Key presses, the board's own frames aside, leave what is believed of the board alone. */
  lemma BeliefUntouched(env: Env, s: Pitches, e: Event)
    requires !e.BoardLink? && !e.FromBoardFrame?
    ensures Handle(env, s, e).0.board.confirmed == s.board.confirmed
    ensures Handle(env, s, e).0.board.revision == s.board.revision
  {
  }

  lemma StepKeepsSession(env: Env, h: History, e: Event)
    requires SessionInv(h.now.board, h.session)
    ensures SessionInv(Step(env, h, e).now.board, Step(env, h, e).session)
  {
    if e.FromBoardFrame? {
      BoardFrameSession(env, h.now, h.session, e.frame, e.accept);
    } else if !e.BoardLink? {
      BeliefUntouched(env, h.now, e);
    }
  }

  lemma {:induction false} RunKeepsBoard(env: Env, config: Config, events: seq<Event>)
    ensures TargetInv(env, RunFrom(env, config, events).now)
    ensures SessionInv(RunFrom(env, config, events).now.board, RunFrom(env, config, events).session)
  {
    if events != [] {
      var h := RunFrom(env, config, events[..|events| - 1]);
      RunKeepsBoard(env, config, events[..|events| - 1]);
      HandleTargets(env, h.now, events[|events| - 1]);
      StepKeepsSession(env, h, events[|events| - 1]);
    }
  }

  // ---- Main results -------------------------------------------------------------

  /**
   Between any two worker events of any run: a staged target is the current canonical
   configuration and no board-sourced intent is pending; what the board is believed to
   show it reported itself since its link last changed.
   */
  lemma BoardStateIsHonest(env: Env, config: Config, events: seq<Event>)
    ensures var h := RunFrom(env, config, events);
            var b := h.now.board;
            && (b.target.Some? ==>
                  b.target.value == Canonical(env, h.now) && forall d :: d in h.now.pending ==>
                      h.now.pending[d].source == FromHost)
            && (b.confirmed.Some? ==> b.confirmed.value in h.session.reported)
            && forall i, j :: 0 <= i < j < |h.session.revisions| ==> h.session.revisions[i] < h.session.revisions[j]
  {
    RunKeepsBoard(env, config, events);
  }

  /**
   Whatever is written to the board in any run is the canonical configuration of that
   moment, and never overtakes a board edit that is still in flight.
   */
  lemma BoardWritesAreCanonical(env: Env, config: Config, events: seq<Event>, e: Event, k: nat)
    requires k < |Handle(env, RunFrom(env, config, events).now, e).1|
    requires Handle(env, RunFrom(env, config, events).now, e).1[k].command.SendBoard?
    ensures var s := RunFrom(env, config, events).now;
            && Handle(env, s, e).1[k].command.config == Canonical(env, s)
            && forall d :: d in s.pending ==> s.pending[d].source == FromHost
  {
    RunKeepsBoard(env, config, events);
  }

  /** Only an explicit board frame authors a room edit; a passive snapshot sends nothing at all. */
  lemma OnlyExplicitFramesAuthor(env: Env, s: Pitches, e: Event, k: nat)
    requires k < |Handle(env, s, e).1| && Handle(env, s, e).1[k].command.PublishBoardEdit?
    ensures e.FromBoardFrame? && (e.frame.Run? || e.frame.Edit?)
    ensures Handle(env, s, e).1[k].command.frame == e.frame
    ensures s.board.target.Some? || s.board.confirmed != Some(e.frame.config)
  {
  }

  lemma SnapshotStep(env: Env, h: History, revision: nat, seen: Config, accept: bool)
    ensures var h' := Step(env, h, FromBoardFrame(Snapshot(revision, seen), accept));
            && h'.sent == h.sent && h'.tracked == h.tracked && h'.now.pending == h.now.pending
            && (if Stale(h.now.board, revision) then h'.now == h.now && h'.session == h.session
                else h'.session.revisions == h.session.revisions + [revision])
  {
  }

  /**
   A snapshot is taken in exactly when its revision is newer than every one taken in
   before it in this board session; otherwise it changes nothing.
   */
  lemma SnapshotsAreFenced(env: Env, config: Config, events: seq<Event>, revision: nat, seen: Config, accept: bool)
    ensures var h := RunFrom(env, config, events);
            var h' := RunFrom(env, config, events + [FromBoardFrame(Snapshot(revision, seen), accept)]);
            && h'.sent == h.sent && h'.tracked == h.tracked && h'.now.pending == h.now.pending
            && (if forall i :: 0 <= i < |h.session.revisions| ==> h.session.revisions[i] < revision
                then h'.session.revisions == h.session.revisions + [revision]
                else h'.now == h.now && h'.session == h.session)
  {
    RunKeepsBoard(env, config, events);
    var h := RunFrom(env, config, events);
    Extend(env, config, events, FromBoardFrame(Snapshot(revision, seen), accept));
    SnapshotStep(env, h, revision, seen, accept);
    StaleIff(h.now.board, h.session, revision);
  }

  lemma StaleIff(b: Board, session: Session, revision: nat)
    requires SessionInv(b, session)
    ensures Stale(b, revision) <==> exists i :: 0 <= i < |session.revisions| && revision <= session.revisions[i]
  {
    var n := |session.revisions|;
    if n > 0 {
      assert session.revisions[n - 1] == b.revision.value;
    }
  }

  lemma Extend(env: Env, config: Config, events: seq<Event>, e: Event)
    ensures RunFrom(env, config, events + [e]) == Step(env, RunFrom(env, config, events), e)
  {
    assert (events + [e])[..|events|] == events;
  }

  // ---- Plans ------------------------------------------------------------------

  /** A plan names exactly the classes whose level differs, with the board's level. */
  lemma {:induction false} EditsAreTheDifference(before: set<nat>, after: set<nat>, n: nat, token: nat, c: nat)
    requires c < 12 && n <= 12
    ensures PitchIntents.Latest(Entries(token, FromBoard, PitchEdits(before, after, n)), ClassOf(48 + c))
            == (if c < n && ((48 + c in before) != (48 + c in after))
                then Some(Intent(48 + c in after, token, FromBoard)) else None)
  {
    if n > 0 {
      EditsAreTheDifference(before, after, n - 1, token, c);
      var edits := PitchEdits(before, after, n);
      var rest := PitchEdits(before, after, n - 1);
      if edits != rest {
        assert Entries(token, FromBoard, edits)[..|edits| - 1] == Entries(token, FromBoard, rest);
      }
    }
  }

  ghost predicate Ascending(edits: seq<(Pitch, bool)>, n: nat) {
    && (forall i :: 0 <= i < |edits| ==> edits[i].0.degree < n)
    && forall i, j :: 0 <= i < j < |edits| ==> edits[i].0.degree < edits[j].0.degree
  }

  /** The edits come in ascending order of class, so no class is named twice. */
  lemma {:induction false} EditsAreAscending(before: set<nat>, after: set<nat>, n: nat)
    requires n <= 12
    ensures Ascending(PitchEdits(before, after, n), n)
  {
    if n > 0 {
      EditsAreAscending(before, after, n - 1);
      var rest := PitchEdits(before, after, n - 1);
      assert Ascending(rest, n - 1);
    }
  }

  /**
   An explicit board edit the transport takes makes every class the board changed
   optimistically what the board shows, and leaves the other classes' intents alone.
   */
  lemma BoardEditTakesEffect(env: Env, s: Pitches, frame: Frame, c: nat)
    requires (frame.Run? || frame.Edit?) && c < 12 && s.nextToken != MAX_TOKEN
    requires s.board.target.Some? || s.board.confirmed != Some(frame.config)
    ensures var s' := Handle(env, s, FromBoardFrame(frame, true)).0;
            var d := ClassOf(48 + c);
            if (48 + c in Canonical(env, s).pattern) != (48 + c in frame.config.pattern)
            then d in s'.pending && s'.pending[d].source == FromBoard
                && Optimistic(s', d) == (48 + c in frame.config.pattern)
            else (d in s'.pending <==> d in s.pending) && (d in s.pending ==> s'.pending[d] == s.pending[d])
  {
    var s1 := ObserveConfig(s, frame.config).0;
    var edits := PlanEdits(env, s1, frame.config);
    EditsAreTheDifference(Canonical(env, s).pattern, frame.config.pattern, 12, s.nextToken, c);
    PitchIntents.TrackLookup(s.pending, Entries(s.nextToken, FromBoard, edits), ClassOf(48 + c));
  }

  lemma {:induction false} NoEditsIff(before: set<nat>, after: set<nat>, n: nat)
    ensures PitchEdits(before, after, n) == [] <==> forall c :: 48 <= c < 48 + n ==> (c in before <==> c in after)
  {
    if n > 0 {
      NoEditsIff(before, after, n - 1);
    }
  }

  /** A board configuration asks nothing of the room exactly when it agrees on settings and on the twelve classes. */
  lemma PlanIsEmptyIff(env: Env, s: Pitches, config: Config)
    ensures PlanSettings(s, config).None? && PlanEdits(env, s, config) == []
            <==> config.settings == s.roomConfig.settings
                 && forall c :: 48 <= c < 60 ==> (c in Canonical(env, s).pattern <==> c in config.pattern)
  {
    NoEditsIff(Canonical(env, s).pattern, config.pattern, 12);
  }

  /**
   In any run a staged target whose deadline passed is sent as it is; and once the board
   echoes it under a fresh revision the board is believed, and is, in step.
   */
  lemma StagedTargetIsSentAndEchoed(env: Env, config: Config, events: seq<Event>, revision: nat, accept: bool)
    requires var h := RunFrom(env, config, events);
             h.now.board.target.Some? && forall i :: 0 <= i < |h.session.revisions| ==>
                 h.session.revisions[i] < revision
    ensures var s := RunFrom(env, config, events).now;
            var (waiting, sent) := Handle(env, s, TargetTimer(true, accept));
            var (settled, silent) := Handle(env, waiting,
                                            FromBoardFrame(Snapshot(revision, s.board.target.value), true));
            && sent == [Sent(SendBoard(Canonical(env, s)), accept)] && waiting.board.target == s.board.target
            && silent == [] && settled.board.target.None? && !settled.board.retry
            && settled.board.confirmed == Some(Canonical(env, settled))
  {
    RunKeepsBoard(env, config, events);
    var h := RunFrom(env, config, events);
    StaleIff(h.now.board, h.session, revision);
    SentAndEchoed(env, h.now, revision, accept);
  }

  lemma SentAndEchoed(env: Env, s: Pitches, revision: nat, accept: bool)
    requires TargetInv(env, s) && s.board.target.Some? && !Stale(s.board, revision)
    ensures var target := s.board.target.value;
            var (waiting, sent) := Handle(env, s, TargetTimer(true, accept));
            && sent == [Sent(SendBoard(target), accept)] && waiting == s && target == Canonical(env, s)
            && Handle(env, s, FromBoardFrame(Snapshot(revision, target), true))
               == (s.(board := Board(Some(target), None, false, Some(revision))), [])
  {
  }

  /** Losing the board withdraws its own intents, no one else's, and forgets what it showed. */
  lemma LostBoardSparesHostIntents(env: Env, s: Pitches, d: Degree)
    ensures var s' := Handle(env, s, BoardLink(false)).0;
            && (d in s'.pending <==> d in s.pending && s.pending[d].source == FromHost)
            && (d in s'.pending ==> s'.pending[d] == s.pending[d])
            && s'.board == NoBoard && s'.room == s.room && s'.held == s.held
  {
  }

  // ---- Convergence: when is the board looked after? ------------------------------

  /** Something will bring the board to the canonical configuration, or it shows it already. */
  ghost predicate Covered(env: Env, s: Pitches) {
    || s.pending != map[]
    || s.board.target == Some(Canonical(env, s))
    || s.board.confirmed == Some(Canonical(env, s))
  }

  /** A board edit that leaves no intent behind and differs from the canonical configuration. */
  ghost predicate LostEdit(env: Env, s: Pitches, frame: Frame, accept: bool) {
    && (frame.Run? || frame.Edit?)
    && (s.board.target.Some? || s.board.confirmed != Some(frame.config))
    && frame.config != Canonical(env, s)
    && s.pending == map[]
    && (s.nextToken == MAX_TOKEN || !accept || PlanEdits(env, s, frame.config) == [])
  }

  /** An unchanged room set that settles every pending intent while the board is behind and untargeted. */
  ghost predicate SilentRetirement(env: Env, s: Pitches, room: SharedSet) {
    && room == s.room
    && s.pending != map[]
    && (forall d :: d in s.pending ==> s.pending[d].active == Present(room, d))
    && s.board.target.None?
    && s.board.confirmed != Some(Canonical(env, s))
  }

  /** The board link is lost: nothing is staged until it comes back, unless a host intent is in flight. */
  ghost predicate LinkLost(s: Pitches, e: Event) {
    e == BoardLink(false) && forall d :: d in s.pending ==> s.pending[d].source == FromBoard
  }

  ghost predicate Uncovers(env: Env, s: Pitches, e: Event) {
    || LinkLost(s, e)
    || (e.FromBoardFrame? && LostEdit(env, s, e.frame, e.accept))
    || (e.RoomPitchSet? && SilentRetirement(env, s, e.room))
  }

  lemma StageCovers(env: Env, s: Pitches)
    ensures Covered(env, Stage(env, s))
  {
  }

  lemma TrackEmptyIff(pending: map<Degree, Intent>, entries: seq<Tracked>)
    ensures Track(pending, entries) == map[] <==> pending == map[] && entries == []
  {
    if entries != [] {
      assert entries[|entries| - 1].degree in Track(pending, entries);
    }
  }

  lemma KeysKeepCover(env: Env, s: Pitches, e: Event)
    requires Covered(env, s) && (e.KeyDown? || e.KeyUp?)
    ensures Covered(env, Handle(env, s, e).0)
  {
    PitchIntents.KeyShapeFree(env, s, e);
    var (s', sent) := Handle(env, s, e);
    if s'.pending == map[] && sent != [] {
      TrackEmptyIff(s.pending, IntentsOf(sent[0]));
    }
  }

  lemma PublishCoverIff(env: Env, s: Pitches, frame: Frame, accept: bool)
    requires frame.Run? || frame.Edit?
    requires s.board.target.None? && s.board.confirmed == Some(frame.config)
    ensures Covered(env, PublishEdit(env, s, frame, accept).0)
            <==> !(frame.config != Canonical(env, s) && s.pending == map[]
                   && (s.nextToken == MAX_TOKEN || !accept || PlanEdits(env, s, frame.config) == []))
  {
    var edits := PlanEdits(env, s, frame.config);
    var entries := Entries(s.nextToken, FromBoard, edits);
    TrackEmptyIff(s.pending, entries);
    assert entries == [] <==> edits == [];
  }

  lemma BoardFrameCoverIff(env: Env, s: Pitches, frame: Frame, accept: bool)
    requires Covered(env, s) && TargetInv(env, s)
    ensures Covered(env, BoardFrame(env, s, frame, accept).0) <==> !LostEdit(env, s, frame, accept)
  {
    match frame {
      case Run(config) => PublishObserved(env, s, frame, accept);
      case Edit(config) => PublishObserved(env, s, frame, accept);
      case Snapshot(revision, config) =>
        StageCovers(env, s.(board := s.board.(revision := Some(revision)).(confirmed := Some(config))));
      case Pulse =>
    }
  }

  lemma PublishObserved(env: Env, s: Pitches, frame: Frame, accept: bool)
    requires Covered(env, s) && (frame.Run? || frame.Edit?)
    ensures Covered(env, BoardFrame(env, s, frame, accept).0) <==> !LostEdit(env, s, frame, accept)
  {
    var (s1, seen) := ObserveConfig(s, frame.config);
    if seen == BoardEdit {
      PublishCoverIff(env, s1, frame, accept);
    }
  }

  lemma RoomSetCoverIff(env: Env, s: Pitches, room: SharedSet)
    requires Covered(env, s) && TargetInv(env, s)
    ensures Covered(env, RoomSet(env, s, room)) <==> !SilentRetirement(env, s, room)
  {
    if s.room != room {
      StageCovers(env, ApplyRoom(s, room));
    } else {
      var s' := ApplyRoom(s, room);
      if forall d :: d in s.pending ==> s.pending[d].active == Present(room, d) {
        assert s'.pending == map[];
      } else {
        var d :| d in s.pending && s.pending[d].active != Present(room, d);
        assert d in s'.pending;
      }
    }
  }

  lemma BoardLinkCoverIff(env: Env, s: Pitches, ready: bool)
    ensures Covered(env, Handle(env, s, BoardLink(ready)).0) <==> !LinkLost(s, BoardLink(ready))
  {
    if ready {
      StageCovers(env, s.(board := s.board.(confirmed := None, revision := None)));
    } else {
      var s' := Handle(env, s, BoardLink(ready)).0;
      if d :| d in s.pending && s.pending[d].source != FromBoard {
        assert d in s'.pending;
      } else {
        assert s'.pending == map[];
      }
    }
  }

  /**
   In any run the board stays looked after across an event exactly when the event is
   none of three: a lost link, a board edit that leaves no intent behind, or an
   unchanged room set that settles the last intents without staging.
   */
  lemma CoverIsKeptIff(env: Env, config: Config, events: seq<Event>, e: Event)
    requires Covered(env, RunFrom(env, config, events).now)
    ensures Covered(env, RunFrom(env, config, events + [e]).now) <==>
            !Uncovers(env, RunFrom(env, config, events).now, e)
  {
    RunKeepsBoard(env, config, events);
    Extend(env, config, events, e);
    var s := RunFrom(env, config, events).now;
    match e {
      case KeyDown(_, _, _) => KeysKeepCover(env, s, e);
      case KeyUp(_, _, _) => KeysKeepCover(env, s, e);
      case BoardLink(ready) => BoardLinkCoverIff(env, s, ready);
      case FromBoardFrame(frame, accept) => BoardFrameCoverIff(env, s, frame, accept);
      case RoomPitchSet(room) => RoomSetCoverIff(env, s, room);
      case _ =>
    }
  }

  /** The run in which the board comes up and shows the configuration of an empty room. */
  lemma BoardInStep(env: Env)
    ensures var config := Config(0, {});
            var shown := Canonical(env, Initial(config));
            var events := [BoardLink(true), FromBoardFrame(Snapshot(1, shown), true)];
            RunFrom(env, config, events).now == Initial(config).(board := Board(Some(shown), None, false, Some(1)))
  {
    var config := Config(0, {});
    var e1, e2 := BoardLink(true), FromBoardFrame(Snapshot(1, Canonical(env, Initial(config))), true);
    Extend(env, config, [], e1);
    Extend(env, config, [e1], e2);
    assert [] + [e1] == [e1] && [e1] + [e2] == [e1, e2];
  }

  /**
   The second exception is real: a board in step changes its settings and the transport
   refuses the edit. The board then shows settings the room never heard of, with nothing
   staged and nothing pending.
   */
  lemma LostEditHappens(env: Env)
    ensures var shown := Canonical(env, Initial(Config(0, {})));
            var events := [BoardLink(true), FromBoardFrame(Snapshot(1, shown), true)];
            var edited := Config(1, {});
            var s := RunFrom(env, Config(0, {}), events).now;
            var s' := RunFrom(env, Config(0, {}), events + [FromBoardFrame(Edit(edited), false)]).now;
            && Covered(env, s) && !Covered(env, s')
            && s'.board == Board(Some(edited), None, false, Some(1)) && s'.pending == map[]
            && s'.roomConfig == Config(0, {})
  {
    var config := Config(0, {});
    var e1, e2 := BoardLink(true), FromBoardFrame(Snapshot(1, Canonical(env, Initial(config))), true);
    BoardInStep(env);
    Extend(env, config, [e1, e2], FromBoardFrame(Edit(Config(1, {})), false));
  }

  /**
   The third exception is real: a settings change arrives while a key toggled on is
   pending, the key is toggled off again, and the room repeats its unchanged set. The
   board then shows the old settings with nothing staged and nothing pending.
   */
  lemma SilentRetirementHappens(env: Env)
    ensures var shown := Canonical(env, Initial(Config(0, {})));
            var events :=
              [BoardLink(true), FromBoardFrame(Snapshot(1, shown), true),
               KeyDown(ToggleSet, 60, true), FromRoomFrame(Edit(Config(1, {}))),
               KeyUp(ToggleSet, 60, true), KeyDown(ToggleSet, 60, true)];
            var s := RunFrom(env, Config(0, {}), events).now;
            var s' := RunFrom(env, Config(0, {}), events + [RoomPitchSet(SharedSet({}, {}))]).now;
            Covered(env, s) && !Covered(env, s') && s'.board.confirmed == Some(shown)
  {
    var config := Config(0, {});
    var shown := Canonical(env, Initial(config));
    var e1, e2 := BoardLink(true), FromBoardFrame(Snapshot(1, shown), true);
    var e3, e4, e5 := KeyDown(ToggleSet, 60, true), FromRoomFrame(Edit(Config(1, {}))), KeyUp(ToggleSet, 60, true);
    var s2 := Initial(config).(board := Board(Some(shown), None, false, Some(1)));
    BoardInStep(env);
    ToggleTwice(env, s2, Config(1, {}));
    FourMore(env, config, [e1, e2], e3, e4, e5, e3);
    assert [e1, e2] + [e3] + [e4] + [e5] + [e3] == [e1, e2, e3, e4, e5, e3];
    Extend(env, config, [e1, e2, e3, e4, e5, e3], RoomPitchSet(SharedSet({}, {})));
  }

  /** One event's effect on the state alone. */
  function After(env: Env, s: Pitches, e: Event): Pitches {
    Handle(env, s, e).0
  }

  lemma FourMore(env: Env, config: Config, events: seq<Event>, a: Event, b: Event, c: Event, d: Event)
    ensures RunFrom(env, config, events + [a] + [b] + [c] + [d]).now
         == After(env, After(env, After(env, After(env, RunFrom(env, config, events).now, a), b), c), d)
  {
    Extend(env, config, events, a);
    Extend(env, config, events + [a], b);
    Extend(env, config, events + [a] + [b], c);
    Extend(env, config, events + [a] + [b] + [c], d);
  }

  /** Toggled on, settings changed, toggled off: the untargeted board's retirement is silent. */
  lemma ToggleTwice(env: Env, s: Pitches, config: Config)
    requires s.pending == map[] && s.held == {} && s.nextToken == 1 && s.room == SharedSet({}, {})
    requires s.board.target.None? && !s.board.retry && s.roomConfig.settings != config.settings
    requires s.board.confirmed == Some(Canonical(env, s))
    ensures var s4 := After(env, After(env, s, KeyDown(ToggleSet, 60, true)), FromRoomFrame(Edit(config)));
            var s6 := After(env, After(env, s4, KeyUp(ToggleSet, 60, true)), KeyDown(ToggleSet, 60, true));
            var s7 := After(env, s6, RoomPitchSet(s.room));
            Covered(env, s6) && !Covered(env, s7) && s7.board == s.board
  {
    var d := ClassOf(60);
    var on, off := Intent(true, 1, FromHost), Intent(false, 2, FromHost);
    TrackOne(map[], d, on);
    TrackOne(map[d := on], d, off);
    var s3 := s.(held := {60}, pending := map[d := on], nextToken := 2);
    assert After(env, s, KeyDown(ToggleSet, 60, true)) == s3;
    assert d in s3.pending;
    var s4 := s3.(roomConfig := config);
    assert After(env, s3, FromRoomFrame(Edit(config))) == s4;
    var s5 := s4.(held := {});
    assert After(env, s4, KeyUp(ToggleSet, 60, true)) == s5;
    var s6 := s5.(held := {60}, pending := map[d := off], nextToken := 3);
    assert After(env, s5, KeyDown(ToggleSet, 60, true)) == s6;
    assert d in s6.pending;
    assert After(env, s6, RoomPitchSet(s.room)) == s6.(pending := map[]);
  }

  lemma TrackOne(pending: map<Degree, Intent>, d: Degree, intent: Intent)
    ensures Track(pending, [Tracked(d, intent)]) == pending[d := intent]
  {
    assert [Tracked(d, intent)][..0] == [];
  }
}
