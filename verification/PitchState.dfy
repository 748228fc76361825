/**
 The bridge's optimistic view of the room's one pitch set, and the board it keeps in
 step with it.

 Host keys and board edits become intents with correlation tokens; the room answers
 with outcomes, resets and whole materialised sets; the board is driven towards the
 canonical configuration through one retried target.
 */
module PitchState {
  import opened Prelude
  import HeldNotes

  const MAX_TOKEN: nat := 0xFFFF_FFFF_FFFF_FFFF
  const TWELVE_TET: nat := 0

  datatype Degree = Degree(tuning: nat, index: nat)
  datatype Pitch = Pitch(tuning: nat, degree: nat, period: int)
  datatype SharedSet = SharedSet(classes: set<Degree>, pitches: set<Pitch>)

  /** `settings` stands for everything in a round-table configuration but its pattern. */
  datatype Config = Config(settings: nat, pattern: set<nat>)

  datatype Source = FromHost | FromBoard
  datatype Intent = Intent(active: bool, token: nat, source: Source)
  datatype Mode = ToggleSet | GateSet | Perform

  datatype Frame = Run(config: Config) | Edit(config: Config) | Snapshot(revision: nat, config: Config) | Pulse

  datatype Command =
    | SetSharedPitch(token: nat, pitch: Pitch, active: bool)
    | PublishBoardEdit(token: nat, frame: Frame, settings: Option<Config>, edits: seq<(Pitch, bool)>)
    | PublishRoundTable(frame: Frame)
    | SendBoard(config: Config)

  /** A command offered to the transport, and whether the transport took it. */
  datatype Sent = Sent(command: Command, accepted: bool)

  datatype Board = Board(confirmed: Option<Config>, target: Option<Config>, retry: bool, revision: Option<nat>)

  datatype Pitches = Pitches(
    board: Board, held: set<nat>, pending: map<Degree, Intent>, nextToken: nat,
    room: SharedSet, roomConfig: Config)

  datatype Observation = Confirmed | StaleEcho | BoardEdit

  /**
   What the model takes from outside: the MIDI note an absolute pitch rounds to, and
   whether a pattern can still take a note.
   */
  datatype Env = Env(noteOf: Pitch -> Option<nat>, accepts: (set<nat>, nat) -> bool)

  const NoBoard: Board := Board(None, None, false, None)

  function Initial(config: Config): Pitches {
    Pitches(NoBoard, {}, map[], 1, SharedSet({}, {}), config)
  }

  // ---- Pitches and degrees ----------------------------------------------------

  function PitchForMidi(note: nat): Pitch {
    Pitch(TWELVE_TET, note % 12, note / 12)
  }

  function SharedDegree(p: Pitch): Degree {
    Degree(p.tuning, p.degree)
  }

  /** The shared class a key belongs to. */
  function ClassOf(note: nat): Degree {
    SharedDegree(PitchForMidi(note))
  }

  predicate Present(room: SharedSet, d: Degree) {
    d in room.classes || exists p :: p in room.pitches && SharedDegree(p) == d
  }

  predicate Optimistic(s: Pitches, d: Degree) {
    if d in s.pending then s.pending[d].active else Present(s.room, d)
  }

  predicate HoldsClass(s: Pitches, d: Degree) {
    exists n :: n in s.held && ClassOf(n) == d
  }

  /** Whether the room projects onto MIDI note `n`. */
  predicate Sounds(env: Env, room: SharedSet, n: nat) {
    || (48 <= n && Degree(TWELVE_TET, n - 48) in room.classes)
    || exists p :: p in room.pitches && p.tuning == TWELVE_TET && env.noteOf(p) == Some(n)
  }

  function RoomNotes(env: Env, room: SharedSet): set<nat> {
    set n | 0 <= n < HeldNotes.NOTES && Sounds(env, room, n)
  }

  /** The first `n` notes offered in ascending order to an initially clear pattern. */
  function Pattern(env: Env, notes: set<nat>, n: nat): set<nat> {
    if n == 0 then {}
    else
      var p := Pattern(env, notes, n - 1);
      if n - 1 in notes && env.accepts(p, n - 1) then p + {n - 1} else p
  }

  function BoardConfig(env: Env, room: SharedSet, config: Config): Config {
    config.(pattern := Pattern(env, RoomNotes(env, room), HeldNotes.NOTES))
  }

  function Canonical(env: Env, s: Pitches): Config {
    BoardConfig(env, s.room, s.roomConfig)
  }

  // ---- Intents ----------------------------------------------------------------

  datatype Tracked = Tracked(degree: Degree, intent: Intent)

  function Track(pending: map<Degree, Intent>, entries: seq<Tracked>): map<Degree, Intent> {
    if entries == [] then pending
    else
      var last := entries[|entries| - 1];
      Track(pending, entries[..|entries| - 1])[last.degree := last.intent]
  }

  function Entries(token: nat, source: Source, edits: seq<(Pitch, bool)>): seq<Tracked> {
    seq(|edits|, i requires 0 <= i < |edits| => Tracked(SharedDegree(edits[i].0), Intent(edits[i].1, token, source)))
  }

  function Reject(s: Pitches, token: nat): Pitches {
    s.(pending := map d | d in s.pending && s.pending[d].token != token :: s.pending[d])
  }

  function AbandonThrough(s: Pitches, token: nat): Pitches {
    s.(pending := map d | d in s.pending && s.pending[d].token > token :: s.pending[d])
  }

  function AbandonBoard(s: Pitches): Pitches {
    s.(pending := map d | d in s.pending && s.pending[d].source != FromBoard :: s.pending[d])
  }

  function ApplyRoom(s: Pitches, room: SharedSet): Pitches {
    s.(room := room, pending := map d | d in s.pending && Present(room, d) != s.pending[d].active :: s.pending[d])
  }

  /** Allocate a token, offer the command, and track the intent only if it was taken. */
  function ApplyIntent(s: Pitches, pitch: Pitch, active: bool, accept: bool): (Pitches, seq<Sent>) {
    if s.nextToken == MAX_TOKEN then (s, [])
    else
      var s1 := s.(nextToken := s.nextToken + 1);
      var sent := [Sent(SetSharedPitch(s.nextToken, pitch, active), accept)];
      (if accept then s1.(pending := Track(s.pending, Entries(s.nextToken, FromHost, [(pitch, active)]))) else s1, sent)
  }

  function NoteOn(s: Pitches, mode: Mode, note: nat, accept: bool): (Pitches, seq<Sent>) {
    if note in s.held then (s, [])
    else
      var s1 := s.(held := s.held + {note});
      var pitch := PitchForMidi(note);
      var present := Optimistic(s1, SharedDegree(pitch));
      match mode
      case ToggleSet => ApplyIntent(s1, pitch, !present, accept)
      case GateSet => if present then (s1, []) else ApplyIntent(s1, pitch, true, accept)
      case Perform => (s1, [])
  }

  function NoteRelease(s: Pitches, mode: Mode, note: nat, accept: bool): (Pitches, seq<Sent>) {
    var s1 := s.(held := s.held - {note});
    if mode != GateSet || note !in s.held then (s1, [])
    else
      var pitch := PitchForMidi(note);
      var d := SharedDegree(pitch);
      if !HoldsClass(s1, d) && Optimistic(s1, d) then ApplyIntent(s1, pitch, false, accept) else (s1, [])
  }

  // ---- The board --------------------------------------------------------------

  function Untargeted(s: Pitches): Pitches {
    s.(board := s.board.(target := None, retry := false))
  }

  function Stage(env: Env, s: Pitches): Pitches {
    if s.pending != map[] then Untargeted(s)
    else
      var target := Canonical(env, s);
      if s.board.confirmed == Some(target) && s.board.target.None? then s
      else s.(board := s.board.(target := Some(target), retry := true))
  }

  function TargetDue(s: Pitches, expired: bool): (Pitches, Option<Config>) {
    if s.board.target.None? || (s.board.retry && !expired) then (s, None)
    else (s.(board := s.board.(retry := true)), s.board.target)
  }

  function ObserveConfig(s: Pitches, config: Config): (Pitches, Observation) {
    if s.board.target.None? && s.board.confirmed == Some(config) then (s, Confirmed)
    else (s.(board := s.board.(confirmed := Some(config), target := None, retry := false)), BoardEdit)
  }

  predicate Stale(b: Board, revision: nat) {
    b.revision.Some? && revision <= b.revision.value
  }

  function ObserveSnapshot(env: Env, s: Pitches, revision: nat, config: Config): (Pitches, Observation) {
    if Stale(s.board, revision) then (s, StaleEcho)
    else
      var s1 := s.(board := s.board.(revision := Some(revision)));
      if s1.board.target == Some(config) then
        (s1.(board := s1.board.(confirmed := Some(config), target := None, retry := false)), Confirmed)
      else if s1.board.target.Some? then (s1.(board := s1.board.(retry := true)), StaleEcho)
      else if s1.board.confirmed == Some(config) then (s1, Confirmed)
      else (Stage(env, s1.(board := s1.board.(confirmed := Some(config)))), StaleEcho)
  }

  /** Settings without any pattern. */
  function SettingsOnly(config: Config): Config {
    config.(pattern := {})
  }

  /** Edits for the first `n` classes whose level the board changed, lowest first. */
  function PitchEdits(before: set<nat>, after: set<nat>, n: nat): seq<(Pitch, bool)> {
    if n == 0 then []
    else
      var note := 48 + n - 1;
      PitchEdits(before, after, n - 1)
      + (if (note in before) != (note in after) then [(PitchForMidi(note), note in after)] else [])
  }

  function PlanSettings(s: Pitches, config: Config): Option<Config> {
    if SettingsOnly(config) != SettingsOnly(s.roomConfig) then Some(SettingsOnly(config)) else None
  }

  function PlanEdits(env: Env, s: Pitches, config: Config): seq<(Pitch, bool)> {
    PitchEdits(Canonical(env, s).pattern, config.pattern, 12)
  }

  function PublishEdit(env: Env, s: Pitches, frame: Frame, accept: bool): (Pitches, seq<Sent>)
    requires frame.Run? || frame.Edit?
  {
    if s.nextToken == MAX_TOKEN then (s, [])
    else
      var edits := PlanEdits(env, s, frame.config);
      var s1 := s.(nextToken := s.nextToken + 1);
      var sent := [Sent(PublishBoardEdit(s.nextToken, frame, PlanSettings(s, frame.config), edits), accept)];
      (if accept then s1.(pending := Track(s.pending, Entries(s.nextToken, FromBoard, edits))) else s1, sent)
  }

  function BoardFrame(env: Env, s: Pitches, frame: Frame, accept: bool): (Pitches, seq<Sent>) {
    match frame
    case Run(config) =>
      var (s1, seen) := ObserveConfig(s, config);
      if seen == BoardEdit then PublishEdit(env, s1, frame, accept)
      else (s1, [Sent(PublishRoundTable(frame), accept)])
    case Edit(config) =>
      var (s1, seen) := ObserveConfig(s, config);
      if seen == BoardEdit then PublishEdit(env, s1, frame, accept) else (s1, [])
    case Snapshot(revision, config) => (ObserveSnapshot(env, s, revision, config).0, [])
    case Pulse => (s, [Sent(PublishRoundTable(frame), accept)])
  }

  // ---- The worker loop, one event at a time -------------------------------------

  /** `accept` is the transport's answer to whatever command the event gives rise to. */
  datatype Event =
    | KeyDown(mode: Mode, note: nat, accept: bool)
    | KeyUp(mode: Mode, note: nat, accept: bool)
    | RoomLink(ready: bool)
    | RoomSelected
    | BoardLink(ready: bool)
    | FromBoardFrame(frame: Frame, accept: bool)
    | IntentApplied(token: nat)
    | IntentRejected(token: nat)
    | IntentReset(through: nat)
    | RoomPitchSet(room: SharedSet)
    | FromRoomFrame(frame: Frame)
    | TargetTimer(expired: bool, accept: bool)

  function LeaveRoom(env: Env, s: Pitches): Pitches {
    Stage(env, Untargeted(s.(pending := map[])))
  }

  function RoomFrame(env: Env, s: Pitches, frame: Frame): Pitches {
    Stage(env, if frame.Run? || frame.Edit? then s.(roomConfig := frame.config) else s)
  }

  function RoomSet(env: Env, s: Pitches, room: SharedSet): Pitches {
    if s.room != room then Stage(env, ApplyRoom(s, room)) else ApplyRoom(s, room)
  }

  function Handle(env: Env, s: Pitches, e: Event): (Pitches, seq<Sent>) {
    match e
    case KeyDown(mode, note, accept) => if mode == Perform then (s, []) else NoteOn(s, mode, note, accept)
    case KeyUp(mode, note, accept) => if mode == Perform then (s, []) else NoteRelease(s, mode, note, accept)
    case RoomLink(ready) => (if ready then s else LeaveRoom(env, s), [])
    case RoomSelected => (LeaveRoom(env, s), [])
    case BoardLink(ready) =>
      (if ready then Stage(env, s.(board := s.board.(confirmed := None, revision := None)))
       else AbandonBoard(s).(board := NoBoard), [])
    case FromBoardFrame(frame, accept) => BoardFrame(env, s, frame, accept)
    case IntentApplied(_) => (s, [])
    case IntentRejected(token) => (Stage(env, Reject(s, token)), [])
    case IntentReset(through) => (Stage(env, AbandonThrough(s, through)), [])
    case RoomPitchSet(room) => (RoomSet(env, s, room), [])
    case FromRoomFrame(frame) => (RoomFrame(env, s, frame), [])
    case TargetTimer(expired, accept) =>
      var (s1, due) := TargetDue(s, expired);
      (s1, if due.Some? then [Sent(SendBoard(due.value), accept)] else [])
  }

  /** What the board said since its link last changed state. */
  datatype Session = Session(reported: set<Config>, revisions: seq<nat>)

  datatype History = History(now: Pitches, tracked: seq<Tracked>, sent: seq<Sent>, session: Session)

  /** The intents an accepted command puts into force. */
  function IntentsOf(sent: Sent): seq<Tracked> {
    if !sent.accepted then []
    else match sent.command
      case SetSharedPitch(token, pitch, active) => Entries(token, FromHost, [(pitch, active)])
      case PublishBoardEdit(token, _, _, edits) => Entries(token, FromBoard, edits)
      case _ => []
  }

  function Heard(s: Pitches, session: Session, e: Event): Session {
    match e
    case BoardLink(_) => Session({}, [])
    case FromBoardFrame(Run(config), _) => session.(reported := session.reported + {config})
    case FromBoardFrame(Edit(config), _) => session.(reported := session.reported + {config})
    case FromBoardFrame(Snapshot(revision, config), _) =>
      if Stale(s.board, revision) then session
      else Session(session.reported + {config}, session.revisions + [revision])
    case _ => session
  }

  function Step(env: Env, h: History, e: Event): History {
    var (now, sent) := Handle(env, h.now, e);
    History(now, h.tracked + (if sent == [] then [] else IntentsOf(sent[0])), h.sent + sent, Heard(h.now, h.session, e))
  }

  function RunFrom(env: Env, config: Config, events: seq<Event>): History {
    if events == [] then History(Initial(config), [], [], Session({}, []))
    else Step(env, RunFrom(env, config, events[..|events| - 1]), events[|events| - 1])
  }
}
