/** Correlation tokens: what every run of the bridge worker keeps about pending intents. */
module PitchIntents {
  import opened Prelude
  import opened PitchState

  /** The most recently tracked intent for a class. */
  function Latest(tracked: seq<Tracked>, d: Degree): Option<Intent> {
    if tracked == [] then None
    else
      var last := tracked[|tracked| - 1];
      if last.degree == d then Some(last.intent) else Latest(tracked[..|tracked| - 1], d)
  }

  function TokenOf(c: Command): Option<nat> {
    match c
    case SetSharedPitch(token, _, _) => Some(token)
    case PublishBoardEdit(token, _, _, _) => Some(token)
    case _ => None
  }

  /** Tokens of every intent command offered to the transport, taken or not. */
  function Issued(sent: seq<Sent>): seq<nat> {
    if sent == [] then []
    else
      var t := TokenOf(sent[|sent| - 1].command);
      Issued(sent[..|sent| - 1]) + (if t.Some? then [t.value] else [])
  }

  ghost predicate Increasing(s: seq<nat>) {
    forall i, j :: 0 <= i < j < |s| ==> s[i] < s[j]
  }

  ghost predicate AllBelow(s: seq<nat>, bound: nat) {
    forall i :: 0 <= i < |s| ==> 1 <= s[i] < bound
  }

  ghost predicate Ordered(tracked: seq<Tracked>, bound: nat) {
    && (forall i :: 0 <= i < |tracked| ==> 1 <= tracked[i].intent.token < bound)
    && (forall i, j :: 0 <= i < j < |tracked| ==> tracked[i].intent.token <= tracked[j].intent.token)
  }

  ghost predicate NewestPending(pending: map<Degree, Intent>, tracked: seq<Tracked>) {
    forall d :: d in pending ==> Latest(tracked, d) == Some(pending[d])
  }

  ghost predicate IntentInv(h: History) {
    && 1 <= h.now.nextToken <= MAX_TOKEN
    && Ordered(h.tracked, h.now.nextToken)
    && NewestPending(h.now.pending, h.tracked)
    && Increasing(Issued(h.sent)) && AllBelow(Issued(h.sent), h.now.nextToken)
  }

  // ---- Lookups ----------------------------------------------------------------

  lemma {:induction false} LatestAppend(a: seq<Tracked>, b: seq<Tracked>, d: Degree)
    ensures Latest(a + b, d) == if Latest(b, d).Some? then Latest(b, d) else Latest(a, d)
  {
    if b == [] {
      assert a + b == a;
    } else {
      assert (a + b)[..|a + b| - 1] == a + b[..|b| - 1];
      LatestAppend(a, b[..|b| - 1], d);
    }
  }

  lemma {:induction false} TrackLookup(pending: map<Degree, Intent>, entries: seq<Tracked>, d: Degree)
    ensures d in Track(pending, entries) <==> d in pending || Latest(entries, d).Some?
    ensures d in Track(pending, entries) ==>
              Track(pending, entries)[d] == if Latest(entries, d).Some? then Latest(entries, d).value else pending[d]
  {
    if entries != [] {
      TrackLookup(pending, entries[..|entries| - 1], d);
    }
  }

  /** Among ordered entries the latest one for a class carries the greatest token. */
  lemma {:induction false} LatestIsGreatest(tracked: seq<Tracked>, bound: nat, d: Degree, i: nat)
    requires Ordered(tracked, bound) && i < |tracked| && tracked[i].degree == d
    ensures Latest(tracked, d).Some? && tracked[i].intent.token <= Latest(tracked, d).value.token
  {
    var n := |tracked| - 1;
    if tracked[n].degree != d {
      assert Ordered(tracked[..n], bound);
      LatestIsGreatest(tracked[..n], bound, d, i);
    }
  }

  lemma IssuedAppend(sent: seq<Sent>, x: Sent)
    ensures Issued(sent + [x]) == Issued(sent) + if TokenOf(x.command).Some? then [TokenOf(x.command).value] else []
  {
    assert (sent + [x])[..|sent|] == sent;
  }

  // ---- Steps ------------------------------------------------------------------

  ghost predicate SubMap(a: map<Degree, Intent>, b: map<Degree, Intent>) {
    forall d :: d in a ==> d in b && a[d] == b[d]
  }

  /** A step that puts no new intent into force. */
  ghost predicate Quiet(s: Pitches, s': Pitches, sent: seq<Sent>) {
    && s'.nextToken == s.nextToken
    && SubMap(s'.pending, s.pending)
    && (sent == [] || (|sent| == 1 && TokenOf(sent[0].command).None?))
  }

  ghost predicate Carries(entries: seq<Tracked>, token: nat) {
    forall i :: 0 <= i < |entries| ==> entries[i].intent.token == token
  }

  /** A step that offers one intent under the next token. */
  ghost predicate Issues(s: Pitches, s': Pitches, sent: seq<Sent>) {
    && |sent| == 1 && TokenOf(sent[0].command) == Some(s.nextToken)
    && s'.nextToken == s.nextToken + 1 <= MAX_TOKEN
    && Carries(IntentsOf(sent[0]), s.nextToken)
    && s'.pending == Track(s.pending, IntentsOf(sent[0]))
  }

  lemma ApplyIntentShape(s: Pitches, pitch: Pitch, active: bool, accept: bool)
    requires s.nextToken <= MAX_TOKEN
    ensures var (s', sent) := ApplyIntent(s, pitch, active, accept);
            Quiet(s, s', sent) || Issues(s, s', sent)
  {
  }

  lemma PublishEditShape(env: Env, s: Pitches, frame: Frame, accept: bool)
    requires s.nextToken <= MAX_TOKEN && (frame.Run? || frame.Edit?)
    ensures var (s', sent) := PublishEdit(env, s, frame, accept);
            Quiet(s, s', sent) || Issues(s, s', sent)
  {
  }

  lemma StageShape(env: Env, s: Pitches)
    ensures Stage(env, s).pending == s.pending && Stage(env, s).nextToken == s.nextToken
  {
  }

  lemma BoardFrameShape(env: Env, s: Pitches, frame: Frame, accept: bool)
    requires s.nextToken <= MAX_TOKEN
    ensures var (s', sent) := BoardFrame(env, s, frame, accept);
            Quiet(s, s', sent) || Issues(s, s', sent)
  {
    match frame
    case Run(config) => PublishEditShape(env, ObserveConfig(s, config).0, frame, accept);
    case Edit(config) => PublishEditShape(env, ObserveConfig(s, config).0, frame, accept);
    case Snapshot(revision, config) =>
      StageShape(env, s.(board := s.board.(revision := Some(revision)).(confirmed := Some(config))));
    case Pulse =>
  }

  lemma KeyShape(env: Env, s: Pitches, e: Event)
    requires s.nextToken <= MAX_TOKEN && (e.KeyDown? || e.KeyUp?)
    ensures Quiet(s, Handle(env, s, e).0, Handle(env, s, e).1) || Issues(s, Handle(env, s, e).0, Handle(env, s, e).1)
  {
    var pitch := PitchForMidi(e.note);
    if e.KeyDown? {
      var s1 := s.(held := s.held + {e.note});
      ApplyIntentShape(s1, pitch, true, e.accept);
      ApplyIntentShape(s1, pitch, false, e.accept);
    } else {
      ApplyIntentShape(s.(held := s.held - {e.note}), pitch, false, e.accept);
    }
  }

  /** Keys only add intents: the pending map grows by what the accepted command carries. */
  lemma KeyShapeFree(env: Env, s: Pitches, e: Event)
    requires e.KeyDown? || e.KeyUp?
    ensures var (s', sent) := Handle(env, s, e);
            && s'.board == s.board && s'.room == s.room && s'.roomConfig == s.roomConfig
            && |sent| <= 1
            && s'.pending == if sent == [] then s.pending else Track(s.pending, IntentsOf(sent[0]))
  {
  }

  lemma HandleShape(env: Env, s: Pitches, e: Event)
    requires s.nextToken <= MAX_TOKEN
    ensures Quiet(s, Handle(env, s, e).0, Handle(env, s, e).1) || Issues(s, Handle(env, s, e).0, Handle(env, s, e).1)
  {
    if e.KeyDown? || e.KeyUp? {
      KeyShape(env, s, e);
    } else if e.FromBoardFrame? {
      BoardFrameShape(env, s, e.frame, e.accept);
    }
  }

  lemma QuietKeeps(h: History, h': History, sent: seq<Sent>)
    requires IntentInv(h) && Quiet(h.now, h'.now, sent)
    requires h'.tracked == h.tracked && h'.sent == h.sent + sent
    ensures IntentInv(h')
  {
    if sent == [] {
      assert h'.sent == h.sent;
    } else {
      IssuedAppend(h.sent, sent[0]);
      assert sent == [sent[0]];
    }
  }

  lemma IssuesKeeps(h: History, h': History, sent: seq<Sent>)
    requires IntentInv(h) && Issues(h.now, h'.now, sent)
    requires h'.tracked == h.tracked + IntentsOf(sent[0]) && h'.sent == h.sent + sent
    ensures IntentInv(h')
  {
    var more := IntentsOf(sent[0]);
    IssuedAppend(h.sent, sent[0]);
    assert sent == [sent[0]];
    OrderedAppend(h.tracked, more, h.now.nextToken);
    NewestAppend(h.now.pending, h.tracked, more);
  }

  lemma OrderedAppend(tracked: seq<Tracked>, more: seq<Tracked>, token: nat)
    requires Ordered(tracked, token) && Carries(more, token) && token >= 1
    ensures Ordered(tracked + more, token + 1)
  {
  }

  lemma NewestAppend(pending: map<Degree, Intent>, tracked: seq<Tracked>, more: seq<Tracked>)
    requires NewestPending(pending, tracked)
    ensures NewestPending(Track(pending, more), tracked + more)
  {
    forall d | d in Track(pending, more) ensures Latest(tracked + more, d) == Some(Track(pending, more)[d]) {
      TrackLookup(pending, more, d);
      LatestAppend(tracked, more, d);
    }
  }

  lemma StepKeepsIntents(env: Env, h: History, e: Event)
    requires IntentInv(h)
    ensures IntentInv(Step(env, h, e))
  {
    HandleShape(env, h.now, e);
    var (now, sent) := Handle(env, h.now, e);
    var h' := Step(env, h, e);
    if Quiet(h.now, now, sent) {
      assert h'.tracked == h.tracked;
      QuietKeeps(h, h', sent);
    } else {
      IssuesKeeps(h, h', sent);
    }
  }

  lemma {:induction false} RunKeepsIntents(env: Env, config: Config, events: seq<Event>)
    ensures IntentInv(RunFrom(env, config, events))
  {
    if events != [] {
      RunKeepsIntents(env, config, events[..|events| - 1]);
      StepKeepsIntents(env, RunFrom(env, config, events[..|events| - 1]), events[|events| - 1]);
    }
  }

  // ---- Main results -------------------------------------------------------------

  /**
   In every run a pending class carries the newest intent tracked for it, and its
   token is below the next one to be allocated.
   */
  lemma PendingIsNewest(env: Env, config: Config, events: seq<Event>, d: Degree)
    requires d in RunFrom(env, config, events).now.pending
    ensures var h := RunFrom(env, config, events);
            && 1 <= h.now.pending[d].token < h.now.nextToken
            && Tracked(d, h.now.pending[d]) in h.tracked
            && forall i :: 0 <= i < |h.tracked| && h.tracked[i].degree == d ==>
                             h.tracked[i].intent.token <= h.now.pending[d].token
  {
    RunKeepsIntents(env, config, events);
    var h := RunFrom(env, config, events);
    LatestOccurs(h.tracked, d);
    forall i | 0 <= i < |h.tracked| && h.tracked[i].degree == d
      ensures h.tracked[i].intent.token <= h.now.pending[d].token
    {
      LatestIsGreatest(h.tracked, h.now.nextToken, d, i);
    }
  }

  lemma {:induction false} LatestOccurs(tracked: seq<Tracked>, d: Degree)
    requires Latest(tracked, d).Some?
    ensures Tracked(d, Latest(tracked, d).value) in tracked
  {
    var n := |tracked| - 1;
    if tracked[n].degree == d {
      assert tracked[n] in tracked;
    } else {
      LatestOccurs(tracked[..n], d);
    }
  }

  /**
   Rejecting t or resetting through t in any run leaves every class alone whose newest
   intent is newer than t, and withdraws the class whose newest intent is t.
   */
  lemma AnswersSpareNewerIntents(env: Env, config: Config, events: seq<Event>, t: nat, i: nat)
    requires var h := RunFrom(env, config, events);
             i < |h.tracked| && h.tracked[i].degree in h.now.pending
    ensures var h := RunFrom(env, config, events);
            var d := h.tracked[i].degree;
            var rejected := RunFrom(env, config, events + [IntentRejected(t)]).now;
            var reset := RunFrom(env, config, events + [IntentReset(t)]).now;
            && (t < h.tracked[i].intent.token ==>
                  && d in rejected.pending && rejected.pending[d] == h.now.pending[d]
                  && d in reset.pending && reset.pending[d] == h.now.pending[d])
            && (t == h.now.pending[d].token ==> d !in rejected.pending && d !in reset.pending)
  {
    RunKeepsIntents(env, config, events);
    var h := RunFrom(env, config, events);
    LatestIsGreatest(h.tracked, h.now.nextToken, h.tracked[i].degree, i);
    assert (events + [IntentRejected(t)])[..|events|] == events;
    assert (events + [IntentReset(t)])[..|events|] == events;
    StageShape(env, Reject(h.now, t));
    StageShape(env, AbandonThrough(h.now, t));
  }

  /**
   Intent tokens leave the bridge strictly increasing from 1, whether or not the
   transport took the command: the freshness the room leg relies on.
   */
  lemma IssuedTokensIncrease(env: Env, config: Config, events: seq<Event>, i: nat, j: nat)
    requires i < j < |Issued(RunFrom(env, config, events).sent)|
    ensures var tokens := Issued(RunFrom(env, config, events).sent);
            1 <= tokens[i] < tokens[j] < MAX_TOKEN
  {
    RunKeepsIntents(env, config, events);
  }

  /**
   An authoritative room set, stale or not, never changes the optimistic level of a
   class with a pending intent; it decides the level of every other class, and it
   retires exactly the intents it agrees with.
   */
  lemma RoomSetKeepsOptimism(env: Env, s: Pitches, room: SharedSet, d: Degree)
    ensures var s' := Handle(env, s, RoomPitchSet(room)).0;
            && Optimistic(s', d) == (if d in s.pending then Optimistic(s, d) else Present(room, d))
            && (d in s'.pending <==> d in s.pending && s.pending[d].active != Present(room, d))
            && (d in s'.pending ==> s'.pending[d] == s.pending[d])
  {
    StageShape(env, ApplyRoom(s, room));
  }
}
