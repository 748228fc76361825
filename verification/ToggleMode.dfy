/** Toggle-mode keyboards: every fresh press flips its class, releases flip nothing. */
module ToggleMode {
  import opened Prelude
  import opened PitchState
  import opened GateMode

  function ToggleOf(k: Key): Event {
    if k.down then KeyDown(ToggleSet, k.note, true) else KeyUp(ToggleSet, k.note, true)
  }

  function Tapped(env: Env, start: Pitches, keys: seq<Key>): Pitches {
    if keys == [] then start
    else Handle(env, Tapped(env, start, keys[..|keys| - 1]), ToggleOf(keys[|keys| - 1])).0
  }

  /** The keys down after a playing, read off the playing alone. */
  function DownAfter(held: set<nat>, keys: seq<Key>): set<nat> {
    if keys == [] then held
    else
      var before := DownAfter(held, keys[..|keys| - 1]);
      var k := keys[|keys| - 1];
      if k.down then before + {k.note} else before - {k.note}
  }

  /** How many presses of the class found their key up. */
  function Presses(held: set<nat>, keys: seq<Key>, d: Degree): nat {
    if keys == [] then 0
    else
      var rest := keys[..|keys| - 1];
      var k := keys[|keys| - 1];
      Presses(held, rest, d) + if k.down && k.note !in DownAfter(held, rest) && ClassOf(k.note) == d then 1 else 0
  }

  lemma TapEffect(env: Env, s: Pitches, k: Key)
    requires s.nextToken < MAX_TOKEN
    ensures var s' := Handle(env, s, ToggleOf(k)).0;
            && s'.held == (if k.down then s.held + {k.note} else s.held - {k.note})
            && s.nextToken <= s'.nextToken <= s.nextToken + 1
            && forall d :: Optimistic(s', d)
                           == (Optimistic(s, d) != (k.down && k.note !in s.held && ClassOf(k.note) == d))
  {
    if k.down && k.note !in s.held {
      var s1 := s.(held := s.held + {k.note});
      ApplyIntentLevels(s1, PitchForMidi(k.note), !Optimistic(s1, ClassOf(k.note)));
    } else if k.down {
      assert s.held + {k.note} == s.held;
    }
  }

  lemma {:induction false} TappedKeeps(env: Env, start: Pitches, keys: seq<Key>)
    requires start.nextToken + |keys| <= MAX_TOKEN
    ensures var s := Tapped(env, start, keys);
            && s.held == DownAfter(start.held, keys)
            && s.nextToken <= start.nextToken + |keys|
            && forall d :: Optimistic(s, d) == (Optimistic(start, d) != (Presses(start.held, keys, d) % 2 == 1))
  {
    if keys != [] {
      var rest := keys[..|keys| - 1];
      TappedKeeps(env, start, rest);
      TapEffect(env, Tapped(env, start, rest), keys[|keys| - 1]);
    }
  }

  /**
   However toggle-mode keys are played with commands accepted, a class ends up at its
   starting level exactly when it was freshly pressed an even number of times.
   */
  lemma ToggleParity(env: Env, start: Pitches, keys: seq<Key>, d: Degree)
    requires start.nextToken + |keys| <= MAX_TOKEN
    ensures Optimistic(Tapped(env, start, keys), d) == Optimistic(start, d) <==> Presses(start.held, keys, d) % 2 == 0
  {
    TappedKeeps(env, start, keys);
  }
}
