/** The worker's pitch state as it is kept: packed key words, optional deadlines, one intent per class. */
module BridgePitch {
  import opened Prelude
  import opened HeldNotes
  import opened PitchState

  datatype TokenError = CorrelationSpaceExhausted

  class BridgePitchState {
    var boardConfirmed: Option<Config>
    var boardTarget: Option<Config>
    /** Whether a retry deadline is set. */
    var boardRetryAt: bool
    var boardSnapshotRevision: Option<nat>
    const hostHeld: array<bv64>
    var pendingClasses: map<Degree, Intent>
    var nextIntentToken: nat
    var room: SharedSet
    var roomConfig: Config

    ghost predicate Valid()
      reads this
    {
      hostHeld.Length == 2
    }

    ghost function State(): Pitches
      requires Valid()
      reads this, hostHeld
    {
      Pitches(Board(boardConfirmed, boardTarget, boardRetryAt, boardSnapshotRevision), Unpack(hostHeld[..]),
              pendingClasses, nextIntentToken, room, roomConfig)
    }

    constructor (config: Config)
      ensures Valid() && fresh(hostHeld) && State() == Initial(config)
    {
      boardConfirmed, boardTarget, boardRetryAt, boardSnapshotRevision := None, None, false, None;
      hostHeld := new bv64[2](_ => 0);
      pendingClasses := map[];
      nextIntentToken := 1;
      room := SharedSet({}, {});
      roomConfig := config;
      new;
      assert hostHeld[..] == [0, 0];
      NothingHeld();
    }

    method SetHostHeld(note: nat, held: bool) returns (was: bool)
      requires Valid() && note < NOTES
      modifies hostHeld
      ensures was <==> note in old(State()).held
      ensures State() == old(State()).(held := if held then old(State()).held + {note} else old(State()).held - {note})
    {
      var mask := Mask(note % 64);
      var word := hostHeld[note / 64];
      was := Both(word, mask) != 0;
      PackedUpdate(hostHeld[..], note, held);
      hostHeld[note / 64] := Write(word, mask, held);
      assert hostHeld[..] == old(hostHeld[..])[note / 64 := SetBit(word, note % 64, held)];
    }

    /** Compares degrees alone, whatever tuning the pitch belongs to. */
    method HasHeldPitchClass(pitch: Pitch) returns (held: bool)
      requires Valid()
      ensures held <==> exists n :: n in State().held && PitchForMidi(n).degree == pitch.degree
      ensures pitch.tuning == TWELVE_TET ==> (held <==> HoldsClass(State(), SharedDegree(pitch)))
    {
      var note := 0;
      while note < NOTES
        invariant note <= NOTES
        invariant forall n :: n in State().held && n < note ==> PitchForMidi(n).degree != pitch.degree
      {
        if Both(hostHeld[note / 64], Mask(note % 64)) != 0 && PitchForMidi(note).degree == pitch.degree {
          assert note in State().held && ClassOf(note).index == pitch.degree;
          return true;
        }
        assert note in State().held ==> PitchForMidi(note).degree != pitch.degree;
        note := note + 1;
      }
      return false;
    }

    method ContainsOptimisticPitchClass(pitch: Pitch) returns (present: bool)
      requires Valid()
      ensures present <==> Optimistic(State(), SharedDegree(pitch))
    {
      var d := SharedDegree(pitch);
      if d in pendingClasses {
        return pendingClasses[d].active;
      }
      return Present(room, d);
    }

    method AllocateIntentToken() returns (r: Result<nat, TokenError>)
      requires Valid()
      modifies this`nextIntentToken
      ensures r.Err? <==> old(nextIntentToken) == MAX_TOKEN
      ensures r.Err? ==> nextIntentToken == old(nextIntentToken)
      ensures r.Ok? ==> r.value == old(nextIntentToken) && nextIntentToken == r.value + 1
    {
      if nextIntentToken == MAX_TOKEN {
        return Err(CorrelationSpaceExhausted);
      }
      r := Ok(nextIntentToken);
      nextIntentToken := nextIntentToken + 1;
    }

    method TrackPitchIntent(token: nat, source: Source, edits: seq<(Pitch, bool)>)
      modifies this`pendingClasses
      ensures pendingClasses == Track(old(pendingClasses), Entries(token, source, edits))
    {
      var i := 0;
      ghost var all := Entries(token, source, edits);
      while i < |edits|
        invariant i <= |edits|
        invariant pendingClasses == Track(old(pendingClasses), all[..i])
      {
        pendingClasses := pendingClasses[SharedDegree(edits[i].0) := Intent(edits[i].1, token, source)];
        i := i + 1;
        assert all[..i][..i - 1] == all[..i - 1];
      }
      assert all[..i] == all;
    }

    method RejectPitchIntent(token: nat)
      requires Valid()
      modifies this`pendingClasses
      ensures State() == Reject(old(State()), token)
    {
      pendingClasses := map d | d in pendingClasses && pendingClasses[d].token != token :: pendingClasses[d];
    }

    method AbandonPitchIntents()
      requires Valid()
      modifies this`pendingClasses
      ensures State() == old(State()).(pending := map[])
    {
      pendingClasses := map[];
    }

    method AbandonBoardPitchIntents()
      requires Valid()
      modifies this`pendingClasses
      ensures State() == AbandonBoard(old(State()))
    {
      pendingClasses := map d | d in pendingClasses && pendingClasses[d].source != FromBoard :: pendingClasses[d];
    }

    method AbandonPitchIntentsThrough(token: nat)
      requires Valid()
      modifies this`pendingClasses
      ensures State() == AbandonThrough(old(State()), token)
    {
      pendingClasses := map d | d in pendingClasses && pendingClasses[d].token > token :: pendingClasses[d];
    }

    method ApplyConfirmedRoom(confirmed: SharedSet) returns (changed: bool)
      requires Valid()
      modifies this`room, this`pendingClasses
      ensures changed <==> old(room) != confirmed
      ensures State() == ApplyRoom(old(State()), confirmed)
    {
      changed := room != confirmed;
      room := confirmed;
      pendingClasses :=
        map d | d in pendingClasses && Present(confirmed, d) != pendingClasses[d].active :: pendingClasses[d];
    }

    method RoomMidiNotes(env: Env) returns (notes: array<bool>)
      requires Valid()
      ensures fresh(notes) && notes.Length == NOTES
      ensures forall n :: 0 <= n < NOTES ==> (notes[n] <==> n in RoomNotes(env, room))
    {
      notes := new bool[NOTES](_ => false);
      var classes := room.classes;
      while classes != {}
        invariant classes <= room.classes
        invariant forall n :: 0 <= n < NOTES ==>
                                (notes[n] <==> 48 <= n && Degree(TWELVE_TET, n - 48) in room.classes - classes)
        decreases classes
      {
        var d :| d in classes;
        classes := classes - {d};
        if d.tuning == TWELVE_TET && 48 + d.index < NOTES {
          notes[48 + d.index] := true;
        }
      }
      var pitches := room.pitches;
      while pitches != {}
        invariant pitches <= room.pitches
        invariant forall n :: 0 <= n < NOTES ==>
                                (notes[n] <==>
                                 || (48 <= n && Degree(TWELVE_TET, n - 48) in room.classes)
                                 || exists p :: p in room.pitches - pitches && p.tuning == TWELVE_TET
                                     && env.noteOf(p) == Some(n))
        decreases pitches
      {
        var p :| p in pitches;
        ghost var rest := pitches;
        pitches := pitches - {p};
        assert room.pitches - pitches == room.pitches - rest + {p};
        if p.tuning == TWELVE_TET && env.noteOf(p).Some? && env.noteOf(p).value < NOTES {
          notes[env.noteOf(p).value] := true;
        }
      }
      assert room.pitches - {} == room.pitches;
    }

    method CurrentBoardConfig(env: Env) returns (config: Config)
      requires Valid()
      ensures config == Canonical(env, State())
    {
      var notes := RoomMidiNotes(env);
      var pattern: set<nat> := {};
      var note := 0;
      while note < NOTES
        invariant note <= NOTES
        invariant pattern == Pattern(env, RoomNotes(env, room), note)
      {
        if notes[note] && env.accepts(pattern, note) {
          pattern := pattern + {note};
        }
        note := note + 1;
      }
      config := roomConfig.(pattern := pattern);
    }

    method PlanBoardEdit(env: Env, config: Config) returns (settings: Option<Config>, edits: seq<(Pitch, bool)>)
      requires Valid()
      ensures settings == PlanSettings(State(), config)
      ensures edits == PlanEdits(env, State(), config)
    {
      var previous := CurrentBoardConfig(env);
      settings := if SettingsOnly(config) != SettingsOnly(roomConfig) then Some(SettingsOnly(config)) else None;
      edits := [];
      var pitchClass := 0;
      while pitchClass < 12
        invariant pitchClass <= 12
        invariant edits == PitchEdits(previous.pattern, config.pattern, pitchClass)
      {
        var note := 48 + pitchClass;
        if (note in previous.pattern) != (note in config.pattern) {
          edits := edits + [(PitchForMidi(note), note in config.pattern)];
        }
        pitchClass := pitchClass + 1;
      }
    }

    method ClearTarget()
      requires Valid()
      modifies this`boardTarget, this`boardRetryAt
      ensures State() == Untargeted(old(State()))
    {
      boardTarget, boardRetryAt := None, false;
    }

    method StageBoardTarget(env: Env)
      requires Valid()
      modifies this`boardTarget, this`boardRetryAt
      ensures State() == Stage(env, old(State()))
    {
      if pendingClasses != map[] {
        ClearTarget();
        return;
      }
      var target := CurrentBoardConfig(env);
      if boardConfirmed == Some(target) && boardTarget.None? {
        return;
      }
      if boardTarget != Some(target) {
        boardTarget := Some(target);
      }
      boardRetryAt := true;
    }

    method BoardTargetDue(expired: bool) returns (due: Option<Config>)
      requires Valid()
      modifies this`boardRetryAt
      ensures (State(), due) == TargetDue(old(State()), expired)
    {
      if boardTarget.None? {
        return None;
      }
      if boardRetryAt && !expired {
        return None;
      }
      boardRetryAt := true;
      return boardTarget;
    }

    method ObserveBoardConfig(config: Config) returns (seen: Observation)
      requires Valid()
      modifies this`boardConfirmed, this`boardTarget, this`boardRetryAt
      ensures (State(), seen) == ObserveConfig(old(State()), config)
    {
      if boardTarget.None? && boardConfirmed == Some(config) {
        return Confirmed;
      }
      boardConfirmed := Some(config);
      ClearTarget();
      return BoardEdit;
    }

    method ObserveBoardSnapshot(env: Env, revision: nat, config: Config) returns (seen: Observation)
      requires Valid()
      modifies this`boardConfirmed, this`boardTarget, this`boardRetryAt, this`boardSnapshotRevision
      ensures (State(), seen) == ObserveSnapshot(env, old(State()), revision, config)
    {
      if boardSnapshotRevision.Some? && revision <= boardSnapshotRevision.value {
        return StaleEcho;
      }
      boardSnapshotRevision := Some(revision);
      if boardTarget == Some(config) {
        boardConfirmed := Some(config);
        ClearTarget();
        return Confirmed;
      } else if boardTarget.Some? {
        boardRetryAt := true;
        return StaleEcho;
      } else if boardConfirmed == Some(config) {
        return Confirmed;
      }
      boardConfirmed := Some(config);
      StageBoardTarget(env);
      return StaleEcho;
    }

    method ApplySharedPitchIntent(pitch: Pitch, active: bool, accept: bool) returns (sent: seq<Sent>)
      requires Valid() && nextIntentToken <= MAX_TOKEN
      modifies this`pendingClasses, this`nextIntentToken
      ensures (State(), sent) == ApplyIntent(old(State()), pitch, active, accept)
    {
      var token := AllocateIntentToken();
      if token.Err? {
        return [];
      }
      sent := [Sent(SetSharedPitch(token.value, pitch, active), accept)];
      if accept {
        TrackPitchIntent(token.value, FromHost, [(pitch, active)]);
      }
    }

    method HandleHostNoteOn(mode: Mode, note: nat, accept: bool) returns (sent: seq<Sent>)
      requires Valid() && note < NOTES && nextIntentToken <= MAX_TOKEN
      modifies this`pendingClasses, this`nextIntentToken, hostHeld
      ensures (State(), sent) == NoteOn(old(State()), mode, note, accept)
    {
      var already := SetHostHeld(note, true);
      if already {
        assert old(State()).held + {note} == old(State()).held;
        return [];
      }
      var pitch := PitchForMidi(note);
      var present := ContainsOptimisticPitchClass(pitch);
      match mode {
        case ToggleSet => sent := ApplySharedPitchIntent(pitch, !present, accept);
        case GateSet =>
          if present {
            return [];
          }
          sent := ApplySharedPitchIntent(pitch, true, accept);
        case Perform => return [];
      }
    }

    method HandleHostNoteRelease(mode: Mode, note: nat, accept: bool) returns (sent: seq<Sent>)
      requires Valid() && note < NOTES && nextIntentToken <= MAX_TOKEN
      modifies this`pendingClasses, this`nextIntentToken, hostHeld
      ensures (State(), sent) == NoteRelease(old(State()), mode, note, accept)
    {
      var wasHeld := SetHostHeld(note, false);
      if mode != GateSet || !wasHeld {
        return [];
      }
      var pitch := PitchForMidi(note);
      var held := HasHeldPitchClass(pitch);
      var present := ContainsOptimisticPitchClass(pitch);
      if !held && present {
        sent := ApplySharedPitchIntent(pitch, false, accept);
      } else {
        sent := [];
      }
    }

    method PublishBoardFrame(env: Env, frame: Frame, accept: bool) returns (sent: seq<Sent>)
      requires Valid() && (frame.Run? || frame.Edit?) && nextIntentToken <= MAX_TOKEN
      modifies this`pendingClasses, this`nextIntentToken
      ensures (State(), sent) == PublishEdit(env, old(State()), frame, accept)
    {
      var settings, edits := PlanBoardEdit(env, frame.config);
      var token := AllocateIntentToken();
      if token.Err? {
        return [];
      }
      sent := [Sent(PublishBoardEdit(token.value, frame, settings, edits), accept)];
      if accept {
        TrackPitchIntent(token.value, FromBoard, edits);
      }
    }

    method HandleBoardFrame(env: Env, frame: Frame, accept: bool) returns (sent: seq<Sent>)
      requires Valid() && nextIntentToken <= MAX_TOKEN
      modifies this
      ensures (State(), sent) == BoardFrame(env, old(State()), frame, accept)
    {
      var seen := Confirmed;
      match frame {
        case Run(config) => seen := ObserveBoardConfig(config);
        case Edit(config) => seen := ObserveBoardConfig(config);
        case Snapshot(revision, config) => seen := ObserveBoardSnapshot(env, revision, config);
        case Pulse =>
      }
      if seen == BoardEdit && (frame.Run? || frame.Edit?) {
        sent := PublishBoardFrame(env, frame, accept);
      } else if frame.Run? || frame.Pulse? {
        sent := [Sent(PublishRoundTable(frame), accept)];
      } else {
        sent := [];
      }
    }

    /** One pass of the worker's event handling. */
    method HandleEvent(env: Env, e: Event) returns (sent: seq<Sent>)
      requires Valid() && nextIntentToken <= MAX_TOKEN
      requires (e.KeyDown? || e.KeyUp?) ==> e.note < NOTES
      modifies this, hostHeld
      ensures (State(), sent) == Handle(env, old(State()), e)
    {
      sent := [];
      match e {
        case KeyDown(mode, note, accept) =>
          if mode != Perform {
            sent := HandleHostNoteOn(mode, note, accept);
          }
        case KeyUp(mode, note, accept) =>
          if mode != Perform {
            sent := HandleHostNoteRelease(mode, note, accept);
          }
        case RoomLink(ready) =>
          if !ready {
            ForgetRoom(env);
          }
        case RoomSelected => ForgetRoom(env);
        case BoardLink(ready) => HandleBoardLink(env, ready);
        case FromBoardFrame(frame, accept) => sent := HandleBoardFrame(env, frame, accept);
        case IntentApplied(_) =>
        case IntentRejected(token) =>
          RejectPitchIntent(token);
          StageBoardTarget(env);
        case IntentReset(through) =>
          AbandonPitchIntentsThrough(through);
          StageBoardTarget(env);
        case RoomPitchSet(confirmed) => HandleRoomSet(env, confirmed);
        case FromRoomFrame(frame) =>
          if frame.Run? || frame.Edit? {
            roomConfig := frame.config;
          }
          StageBoardTarget(env);
        case TargetTimer(expired, accept) =>
          var due := BoardTargetDue(expired);
          if due.Some? {
            sent := [Sent(SendBoard(due.value), accept)];
          }
      }
    }

    method ForgetRoom(env: Env)
      requires Valid()
      modifies this
      ensures State() == LeaveRoom(env, old(State()))
    {
      AbandonPitchIntents();
      ClearTarget();
      StageBoardTarget(env);
    }

    method HandleRoomSet(env: Env, confirmed: SharedSet)
      requires Valid()
      modifies this
      ensures State() == RoomSet(env, old(State()), confirmed)
    {
      var changed := ApplyConfirmedRoom(confirmed);
      if changed {
        StageBoardTarget(env);
      }
    }

    method HandleBoardLink(env: Env, ready: bool)
      requires Valid()
      modifies this
      ensures State() == Handle(env, old(State()), BoardLink(ready)).0
    {
      if ready {
        boardConfirmed, boardSnapshotRevision := None, None;
        StageBoardTarget(env);
      } else {
        AbandonBoardPitchIntents();
        ClearTarget();
        boardConfirmed, boardSnapshotRevision := None, None;
      }
    }
  }
}
