/** What the canonical board configuration shows of the room. */
module BoardPattern {
  import opened Prelude
  import opened PitchState
  import HeldNotes
  import PitchIntents
  import PitchBoard

  /** The part of a pattern that was there when note n was offered. */
  function Below(pattern: set<nat>, n: nat): set<nat> {
    set k | k in pattern && k < n
  }

  lemma {:induction false} PatternGrows(env: Env, notes: set<nat>, n: nat)
    ensures forall k :: k in Pattern(env, notes, n) ==> k < n
    ensures forall m: nat :: m <= n ==> Pattern(env, notes, m) == Below(Pattern(env, notes, n), m)
  {
    if n > 0 {
      PatternGrows(env, notes, n - 1);
      var p, q := Pattern(env, notes, n), Pattern(env, notes, n - 1);
      forall m: nat | m <= n ensures Pattern(env, notes, m) == Below(p, m) {
        if m < n {
          assert Below(p, m) == Below(q, m);
        }
      }
    }
  }

  lemma {:induction false} PatternIff(env: Env, notes: set<nat>, n: nat, k: nat)
    requires k < n
    ensures var p := Pattern(env, notes, n);
            k in p <==> k in notes && env.accepts(Below(p, k), k)
  {
    PatternGrows(env, notes, n);
    assert Pattern(env, notes, k) == Below(Pattern(env, notes, n), k);
    assert k in Pattern(env, notes, n) <==> k in Pattern(env, notes, k + 1);
  }

  /**
   What is shown and what is not: the canonical pattern has exactly those of the 128 notes
   that the room projects onto and that the lower notes shown leave room for.
   */
  lemma PatternShowsTheRoom(env: Env, s: Pitches, n: nat)
    ensures var p := Canonical(env, s).pattern;
            n in p <==> n < HeldNotes.NOTES && Sounds(env, s.room, n) && env.accepts(Below(p, n), n)
  {
    PatternGrows(env, RoomNotes(env, s.room), HeldNotes.NOTES);
    if n < HeldNotes.NOTES {
      PatternIff(env, RoomNotes(env, s.room), HeldNotes.NOTES, n);
    }
  }

  /** A pattern that takes every note shows exactly the room's notes, a shared twelve-tone class c as 48 + c. */
  lemma RoomyPatternShowsAll(env: Env, s: Pitches, c: nat)
    requires forall p, n :: env.accepts(p, n)
    ensures Canonical(env, s).pattern == RoomNotes(env, s.room)
    ensures c < 12 && Degree(TWELVE_TET, c) in s.room.classes ==> 48 + c in Canonical(env, s).pattern
  {
    forall n ensures n in Canonical(env, s).pattern <==> n in RoomNotes(env, s.room) {
      if n >= 0 {
        PatternShowsTheRoom(env, s, n);
      }
    }
  }

  /** Whatever the pattern refuses, a class can be missing only if it refuses that class's note. */
  lemma PresentClassShows(env: Env, s: Pitches, c: nat)
    requires c < 12 && Degree(TWELVE_TET, c) in s.room.classes
    ensures var p := Canonical(env, s).pattern; 48 + c in p <==> env.accepts(Below(p, 48 + c), 48 + c)
  {
    PatternShowsTheRoom(env, s, 48 + c);
  }

  /**
   In every run whatever is sent to the board has the room's settings and shows note n
   exactly when the room projects onto it and the lower notes shown leave room for it.
   */
  lemma BoardIsSentTheRoom(env: Env, config: Config, events: seq<Event>, e: Event, k: nat, n: nat)
    requires k < |Handle(env, RunFrom(env, config, events).now, e).1|
    requires Handle(env, RunFrom(env, config, events).now, e).1[k].command.SendBoard?
    ensures var s := RunFrom(env, config, events).now;
            var sent := Handle(env, s, e).1[k].command.config;
            && sent.settings == s.roomConfig.settings
            && (n in sent.pattern <==>
                  n < HeldNotes.NOTES && Sounds(env, s.room, n) && env.accepts(Below(sent.pattern, n), n))
  {
    PitchBoard.BoardWritesAreCanonical(env, config, events, e, k);
    PatternShowsTheRoom(env, RunFrom(env, config, events).now, n);
  }

  // ---- Whose room and settings it is ---------------------------------------------

  /** The set the room materialised last, none before the first. */
  function LastRoomSet(events: seq<Event>): SharedSet {
    if events == [] then SharedSet({}, {})
    else
      match events[|events| - 1]
      case RoomPitchSet(room) => room
      case _ => LastRoomSet(events[..|events| - 1])
  }

  /** The configuration the room showed last, the initial one before the first. */
  function LastRoomConfig(config: Config, events: seq<Event>): Config {
    if events == [] then config
    else
      match events[|events| - 1]
      case FromRoomFrame(Run(c)) => c
      case FromRoomFrame(Edit(c)) => c
      case _ => LastRoomConfig(config, events[..|events| - 1])
  }

  lemma RoomKept(env: Env, s: Pitches, e: Event)
    ensures Handle(env, s, e).0.room == if e.RoomPitchSet? then e.room else s.room
    ensures Handle(env, s, e).0.roomConfig
         == if e.FromRoomFrame? && (e.frame.Run? || e.frame.Edit?) then e.frame.config else s.roomConfig
  {
  }

  /** In every run the room the bridge works from is the one it heard last. */
  lemma {:induction false} RoomIsTheLastHeard(env: Env, config: Config, events: seq<Event>)
    ensures RunFrom(env, config, events).now.room == LastRoomSet(events)
    ensures RunFrom(env, config, events).now.roomConfig == LastRoomConfig(config, events)
  {
    if events != [] {
      var n := |events| - 1;
      RoomIsTheLastHeard(env, config, events[..n]);
      RoomKept(env, RunFrom(env, config, events[..n]).now, events[n]);
    }
  }

  // ---- What a board edit asks of the room ------------------------------------------

  /**
   What a published board edit says of the settings: the board's own, without a pattern,
   and only if the room's differ.
   */
  lemma PublishedSettingsAreTheBoards(env: Env, s: Pitches, e: Event, k: nat)
    requires k < |Handle(env, s, e).1| && Handle(env, s, e).1[k].command.PublishBoardEdit?
    ensures var c := Handle(env, s, e).1[k].command;
            c.settings == if c.frame.config.settings == s.roomConfig.settings then None
                          else Some(Config(c.frame.config.settings, {}))
  {
  }

  /**
   An explicit board frame that differs from what is confirmed, or meets a staged target, is
   always published, under the next token, unless tokens have run out.
   */
  lemma BoardEditIsPublished(env: Env, s: Pitches, frame: Frame, accept: bool)
    requires (frame.Run? || frame.Edit?) && s.nextToken != MAX_TOKEN
    requires s.board.target.Some? || s.board.confirmed != Some(frame.config)
    ensures var (s', sent) := Handle(env, s, FromBoardFrame(frame, accept));
            && |sent| == 1 && sent[0].command.PublishBoardEdit? && sent[0].accepted == accept
            && sent[0].command.token == s.nextToken && sent[0].command.frame == frame
            && s'.nextToken == s.nextToken + 1 && s'.board.confirmed == Some(frame.config) && s'.board.target.None?
  {
  }

  /** Losing the room, or choosing another, withdraws every pending intent and stages the board afresh. */
  lemma LeavingWithdrawsIntents(env: Env, s: Pitches, e: Event)
    requires e == RoomLink(false) || e == RoomSelected
    ensures var s' := Handle(env, s, e).0;
            && s'.pending == map[] && s'.room == s.room && s'.held == s.held
            && (s'.board.target == Some(Canonical(env, s'))
                || (s'.board.target.None? && s'.board.confirmed == Some(Canonical(env, s'))))
  {
  }

  /**
   What a fresh passive snapshot teaches. With a target staged, only its echo settles it; any
   other snapshot leaves target and belief alone and keeps the timer armed. With none staged
   the board is believed, and unless it says what it said before, whatever differs from the
   canonical configuration is staged to be corrected, once no intent is in flight.
   */
  lemma SnapshotTeaches(env: Env, s: Pitches, revision: nat, config: Config, accept: bool)
    requires !Stale(s.board, revision)
    ensures var b, s' := s.board, Handle(env, s, FromBoardFrame(Snapshot(revision, config), accept)).0;
            && s' == s.(board := s'.board) && s'.board.revision == Some(revision)
            && (if b.target.Some? then
                  if b.target.value == config
                  then s'.board.confirmed == Some(config) && s'.board.target.None? && !s'.board.retry
                  else s'.board.confirmed == b.confirmed && s'.board.target == b.target && s'.board.retry
                else
                  && s'.board.confirmed == Some(config)
                  && (if b.confirmed == Some(config) then s'.board.target.None? && s'.board.retry == b.retry
                      else s'.board.target == (if s.pending == map[] && config != Canonical(env, s)
                                               then Some(Canonical(env, s)) else None)
                           && (s'.board.target.Some? ==> s'.board.retry)))
  {
  }

  // ---- There and back ----------------------------------------------------------------

  /** What a room that takes pitch edits makes of its shared classes. */
  function ApplyEdits(classes: set<Degree>, edits: seq<(Pitch, bool)>): set<Degree> {
    if edits == [] then classes
    else
      var (pitch, active) := edits[|edits| - 1];
      var rest := ApplyEdits(classes, edits[..|edits| - 1]);
      if active then rest + {SharedDegree(pitch)} else rest - {SharedDegree(pitch)}
  }

  lemma ClassAt(c: nat)
    requires c < 12
    ensures ClassOf(48 + c) == Degree(TWELVE_TET, c)
  {
  }

  lemma ApplyOne(classes: set<Degree>, edits: seq<(Pitch, bool)>, pitch: Pitch, active: bool, d: Degree)
    ensures d in ApplyEdits(classes, edits + [(pitch, active)])
            <==> if d == SharedDegree(pitch) then active else d in ApplyEdits(classes, edits)
  {
    assert (edits + [(pitch, active)])[..|edits|] == edits;
  }

  /** What the edits for the first n classes ask of a class. */
  predicate Decided(before: set<nat>, after: set<nat>, n: nat, classes: set<Degree>, d: Degree) {
    var note := 48 + d.index;
    if d.tuning == TWELVE_TET && d.index < n && ((note in before) != (note in after)) then note in after
    else d in classes
  }

  lemma DecidedOne(before: set<nat>, after: set<nat>, c: nat, classes: set<Degree>, d: Degree)
    ensures Decided(before, after, c + 1, classes, d)
            <==> if d == Degree(TWELVE_TET, c) && ((48 + c in before) != (48 + c in after)) then 48 + c in after
                 else Decided(before, after, c, classes, d)
  {
  }

  lemma EditsUnfold(before: set<nat>, after: set<nat>, c: nat)
    ensures PitchEdits(before, after, c + 1)
            == if (48 + c in before) != (48 + c in after)
               then PitchEdits(before, after, c) + [(PitchForMidi(48 + c), 48 + c in after)]
               else PitchEdits(before, after, c)
  {
  }

  lemma EditDecides(before: set<nat>, after: set<nat>, c: nat, classes: set<Degree>, d: Degree, pitch: Pitch)
    requires SharedDegree(pitch) == Degree(TWELVE_TET, c)
    requires d in ApplyEdits(classes, PitchEdits(before, after, c)) <==> Decided(before, after, c, classes, d)
    requires PitchEdits(before, after, c + 1)
             == if (48 + c in before) != (48 + c in after)
                then PitchEdits(before, after, c) + [(pitch, 48 + c in after)] else PitchEdits(before, after, c)
    ensures d in ApplyEdits(classes, PitchEdits(before, after, c + 1)) <==> Decided(before, after, c + 1, classes, d)
  {
    ApplyOne(classes, PitchEdits(before, after, c), pitch, 48 + c in after, d);
    DecidedOne(before, after, c, classes, d);
  }

  lemma {:induction false} EditsDecideTheirClasses(before: set<nat>, after: set<nat>, n: nat, classes: set<Degree>,
                                                   d: Degree)
    requires n <= 12
    ensures d in ApplyEdits(classes, PitchEdits(before, after, n)) <==> Decided(before, after, n, classes, d)
  {
    if n > 0 {
      var c := n - 1;
      EditsDecideTheirClasses(before, after, c, classes, d);
      ClassAt(c);
      EditsUnfold(before, after, c);
      EditDecides(before, after, c, classes, d, PitchForMidi(48 + c));
    }
  }

  /** A room of twelve-tone classes alone. */
  predicate TwelveTone(room: SharedSet) {
    room.pitches == {} && forall d :: d in room.classes && d.tuning == TWELVE_TET ==> d.index < 12
  }

  lemma TwelveToneNotes(env: Env, room: SharedSet, n: nat)
    requires TwelveTone(room)
    ensures n in RoomNotes(env, room) <==> 48 <= n < 60 && Degree(TWELVE_TET, n - 48) in room.classes
  {
  }

  /** A key of the host lights the note of its class, whatever its octave. */
  lemma KeyLightsItsNote(env: Env, room: SharedSet, note: nat)
    requires ClassOf(note) in room.classes
    ensures 48 + note % 12 in RoomNotes(env, room)
  {
  }

  /**
   A board edit comes back as it was made: once a twelve-tone room has applied the edits and
   the settings a published configuration asks for, the canonical configuration is the board's
   own, note for note.
   */
  lemma BoardEditRoundTrip(env: Env, s: Pitches, config: Config)
    requires forall p, n :: env.accepts(p, n)
    requires TwelveTone(s.room) && forall n :: n in config.pattern ==> 48 <= n < 60
    ensures var room := SharedSet(ApplyEdits(s.room.classes, PlanEdits(env, s, config)), {});
            var settings := if PlanSettings(s, config).Some? then PlanSettings(s, config).value.settings
                            else s.roomConfig.settings;
            TwelveTone(room) && BoardConfig(env, room, s.roomConfig.(settings := settings)) == config
  {
    var before := Canonical(env, s).pattern;
    var room := SharedSet(ApplyEdits(s.room.classes, PlanEdits(env, s, config)), {});
    forall d ensures d in room.classes <==> Decided(before, config.pattern, 12, s.room.classes, d) {
      EditsDecideTheirClasses(before, config.pattern, 12, s.room.classes, d);
    }
    RoomyPatternShowsAll(env, s, 0);
    RoomyPatternShowsAll(env, s.(room := room), 0);
    forall n ensures n in RoomNotes(env, room) <==> n in config.pattern {
      if n >= 0 {
        TwelveToneNotes(env, s.room, n);
        TwelveToneNotes(env, room, n);
      }
    }
    assert BoardConfig(env, room, s.roomConfig).pattern == RoomNotes(env, room) by {
      assert Canonical(env, s.(room := room)) == BoardConfig(env, room, s.roomConfig);
    }
  }
}
