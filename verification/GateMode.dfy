/** Gate-mode keyboards: a class is in the set while any of its octaves is held. */
module GateMode {
  import opened Prelude
  import opened PitchState
  import PitchIntents

  /** A gate-mode key press or release whose command, if any, is taken. */
  datatype Key = Key(down: bool, note: nat)

  function EventOf(k: Key): Event {
    if k.down then KeyDown(GateSet, k.note, true) else KeyUp(GateSet, k.note, true)
  }

  /** A playing: the state reached and the commands sent, each with the keys held after it. */
  datatype Playing = Playing(now: Pitches, log: seq<Entry>)
  datatype Entry = Entry(command: Command, held: set<nat>)

  function Noted(sent: seq<Sent>, held: set<nat>): seq<Entry> {
    if sent == [] then [] else [Entry(sent[0].command, held)]
  }

  function Play(env: Env, start: Pitches, keys: seq<Key>): Playing {
    if keys == [] then Playing(start, [])
    else
      var before := Play(env, start, keys[..|keys| - 1]);
      var (now, sent) := Handle(env, before.now, EventOf(keys[|keys| - 1]));
      Playing(now, before.log + Noted(sent, now.held))
  }

  /** The commands about one class, in order. */
  function Levels(log: seq<Entry>, d: Degree): seq<bool> {
    if log == [] then []
    else
      var c := log[|log| - 1].command;
      Levels(log[..|log| - 1], d) + (if c.SetSharedPitch? && SharedDegree(c.pitch) == d then [c.active] else [])
  }

  ghost predicate Alternates(s: seq<bool>, start: bool) {
    forall i :: 0 <= i < |s| ==> s[i] == if i % 2 == 0 then !start else start
  }

  function LastLevel(s: seq<bool>, start: bool): bool {
    if s == [] then start else s[|s| - 1]
  }

  ghost predicate HeldIsPresent(s: Pitches) {
    forall n :: n in s.held ==> Optimistic(s, ClassOf(n))
  }

  ghost predicate ClassInv(start: Pitches, p: Playing, d: Degree) {
    && Alternates(Levels(p.log, d), Optimistic(start, d))
    && LastLevel(Levels(p.log, d), Optimistic(start, d)) == Optimistic(p.now, d)
  }

  /** An addition leaves a key of its class held, a removal leaves none. */
  ghost predicate Justified(x: Entry) {
    x.command.SetSharedPitch? &&
    (x.command.active <==> exists n :: n in x.held && ClassOf(n) == SharedDegree(x.command.pitch))
  }

  ghost predicate GateInv(start: Pitches, p: Playing) {
    && HeldIsPresent(p.now)
    && p.now.room == start.room
    && (forall d :: ClassInv(start, p, d))
    && (forall i :: 0 <= i < |p.log| ==> Justified(p.log[i]))
  }

  // ---- One key ----------------------------------------------------------------

  /** What an accepted command does to optimistic levels. */
  lemma ApplyIntentLevels(s: Pitches, pitch: Pitch, active: bool)
    requires s.nextToken < MAX_TOKEN
    ensures var (s', sent) := ApplyIntent(s, pitch, active, true);
            && sent == [Sent(SetSharedPitch(s.nextToken, pitch, active), true)]
            && s'.held == s.held && s'.room == s.room && s'.nextToken == s.nextToken + 1
            && forall d :: Optimistic(s', d) == if d == SharedDegree(pitch) then active else Optimistic(s, d)
  {
    var entries := Entries(s.nextToken, FromHost, [(pitch, active)]);
    assert entries[..0] == [];
    assert Track(s.pending, entries) == s.pending[entries[0].degree := entries[0].intent];
  }

  /** The contract of one gate-mode key, whichever branch it takes. */
  ghost predicate KeyEffect(s: Pitches, s': Pitches, sent: seq<Sent>, k: Key) {
    && s'.room == s.room
    && s'.held == (if k.down then s.held + {k.note} else s.held - {k.note})
    && s.nextToken <= s'.nextToken <= s.nextToken + 1
    && (sent == [] || (|sent| == 1 && sent[0].command.SetSharedPitch?
                       && SharedDegree(sent[0].command.pitch) == ClassOf(k.note)
                       && sent[0].command.active == k.down && Optimistic(s, ClassOf(k.note)) != k.down))
    && (forall d :: Optimistic(s', d) == if sent != [] && d == ClassOf(k.note) then k.down else Optimistic(s, d))
  }

  lemma KeyDownEffect(env: Env, s: Pitches, note: nat)
    requires HeldIsPresent(s) && s.nextToken < MAX_TOKEN
    ensures var (s', sent) := Handle(env, s, EventOf(Key(true, note)));
            && KeyEffect(s, s', sent, Key(true, note))
            && Optimistic(s', ClassOf(note))
            && (sent != [] ==> note in s'.held)
  {
    if note !in s.held {
      ApplyIntentLevels(s.(held := s.held + {note}), PitchForMidi(note), true);
    } else {
      assert s.held == s.held + {note};
    }
  }

  lemma KeyUpEffect(env: Env, s: Pitches, note: nat)
    requires HeldIsPresent(s) && s.nextToken < MAX_TOKEN
    ensures var (s', sent) := Handle(env, s, EventOf(Key(false, note)));
            && KeyEffect(s, s', sent, Key(false, note))
            && (sent != [] ==> !HoldsClass(s', ClassOf(note)))
            && (note in s.held && !HoldsClass(s', ClassOf(note)) ==> sent != [])
  {
    ApplyIntentLevels(s.(held := s.held - {note}), PitchForMidi(note), false);
  }

  lemma EffectKeepsHeld(s: Pitches, s': Pitches, sent: seq<Sent>, k: Key)
    requires HeldIsPresent(s) && KeyEffect(s, s', sent, k)
    requires k.down ==> Optimistic(s', ClassOf(k.note))
    requires !k.down && sent != [] ==> !HoldsClass(s', ClassOf(k.note))
    ensures HeldIsPresent(s')
  {
    forall n | n in s'.held ensures Optimistic(s', ClassOf(n)) {
      if ClassOf(n) != ClassOf(k.note) {
        assert n in s.held;
      }
    }
  }

  lemma LevelsAppend(log: seq<Entry>, x: Entry, d: Degree)
    requires x.command.SetSharedPitch?
    ensures Levels(log + [x], d) == Levels(log, d) + if SharedDegree(x.command.pitch) == d then [x.command.active]
            else []
  {
    assert (log + [x])[..|log|] == log;
  }

  /** A level opposite to the last one extends an alternating sequence. */
  lemma AlternatesAppend(s: seq<bool>, start: bool, level: bool)
    requires Alternates(s, start)
    ensures LastLevel(s, start) != level ==> Alternates(s + [level], start)
    ensures LastLevel(s + [level], start) == level
  {
  }

  lemma EffectKeepsClass(start: Pitches, p: Playing, s': Pitches, sent: seq<Sent>, k: Key, d: Degree)
    requires ClassInv(start, p, d) && KeyEffect(p.now, s', sent, k)
    ensures ClassInv(start, Playing(s', p.log + Noted(sent, s'.held)), d)
  {
    if sent == [] {
      assert p.log + Noted(sent, s'.held) == p.log;
    } else {
      LevelsAppend(p.log, Entry(sent[0].command, s'.held), d);
      AlternatesAppend(Levels(p.log, d), Optimistic(start, d), sent[0].command.active);
    }
  }

  lemma PlayKey(env: Env, start: Pitches, p: Playing, k: Key)
    requires GateInv(start, p) && p.now.nextToken < MAX_TOKEN
    ensures var (s', sent) := Handle(env, p.now, EventOf(k));
            GateInv(start, Playing(s', p.log + Noted(sent, s'.held))) && s'.nextToken <= p.now.nextToken + 1
  {
    var (s', sent) := Handle(env, p.now, EventOf(k));
    if k.down {
      KeyDownEffect(env, p.now, k.note);
    } else {
      KeyUpEffect(env, p.now, k.note);
    }
    EffectKeepsHeld(p.now, s', sent, k);
    forall d ensures ClassInv(start, Playing(s', p.log + Noted(sent, s'.held)), d) {
      EffectKeepsClass(start, p, s', sent, k, d);
    }
    if sent != [] {
      assert Justified(Entry(sent[0].command, s'.held));
    }
  }

  lemma {:induction false} PlayKeeps(env: Env, start: Pitches, keys: seq<Key>)
    requires start.held == {} && start.nextToken + |keys| <= MAX_TOKEN
    ensures GateInv(start, Play(env, start, keys))
    ensures Play(env, start, keys).now.nextToken <= start.nextToken + |keys|
  {
    if keys == [] {
      forall d ensures ClassInv(start, Playing(start, []), d) {
      }
    } else {
      PlayKeeps(env, start, keys[..|keys| - 1]);
      PlayKey(env, start, Play(env, start, keys[..|keys| - 1]), keys[|keys| - 1]);
    }
  }

  /**
   However gate-mode keys are played from any starting room and any pending intents,
   with nothing held at first: every held class is optimistically present, the commands
   for a class strictly alternate starting against its initial level, an addition is
   sent while a key of the class is held and a removal only when the last one went up.
   */
  lemma GateModeTracksHeldClasses(env: Env, start: Pitches, keys: seq<Key>)
    requires start.held == {} && start.nextToken + |keys| <= MAX_TOKEN
    ensures var p := Play(env, start, keys);
            && (forall n :: n in p.now.held ==> Optimistic(p.now, ClassOf(n)))
            && (forall d :: Alternates(Levels(p.log, d), Optimistic(start, d)))
            && forall i :: 0 <= i < |p.log| ==>
                             && p.log[i].command.SetSharedPitch?
                             && (p.log[i].command.active <==>
                                 exists n :: n in p.log[i].held && ClassOf(n) == SharedDegree(p.log[i].command.pitch))
  {
    PlayKeeps(env, start, keys);
    var p := Play(env, start, keys);
    forall d ensures Alternates(Levels(p.log, d), Optimistic(start, d)) {
      assert ClassInv(start, p, d);
    }
    forall i | 0 <= i < |p.log|
      ensures p.log[i].command.SetSharedPitch?
      ensures p.log[i].command.active <==>
              exists n :: n in p.log[i].held && ClassOf(n) == SharedDegree(p.log[i].command.pitch)
    {
      assert Justified(p.log[i]);
    }
  }

  /** Releasing the last held octave of a class takes the class out of the optimistic set. */
  lemma ReleasedClassesLeave(env: Env, start: Pitches, keys: seq<Key>, note: nat)
    requires start.held == {} && start.nextToken + |keys| + 1 <= MAX_TOKEN
    requires note in Play(env, start, keys).now.held
    requires forall n :: n in Play(env, start, keys).now.held && ClassOf(n) == ClassOf(note) ==> n == note
    ensures !Optimistic(Play(env, start, keys + [Key(false, note)]).now, ClassOf(note))
  {
    PlayKeeps(env, start, keys);
    assert (keys + [Key(false, note)])[..|keys|] == keys;
    KeyUpEffect(env, Play(env, start, keys).now, note);
  }
}
