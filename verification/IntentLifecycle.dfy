/**
 The bridge worker and the room leg run together: the tokens the bridge issues are the
 ones the leg accepts, and what polling the leg gives is what the bridge is told. Once
 the leg has nothing left to say, an intent can only still be pending if the room
 answered that it applied it.
 */
module IntentLifecycle {
  import opened Prelude
  import PitchState
  import PitchIntents
  import RoomLeg

  datatype Move =
    | Worker(event: PitchState.Event)
    | Room(action: RoomLeg.Action)
    | Poll(applied: bool, other: Option<PitchState.Event>)

  /** `applied` collects the tokens the bridge was told the room had applied. */
  datatype Joint = Joint(bridge: PitchState.History, leg: RoomLeg.History, applied: set<nat>)

  function Start(config: PitchState.Config): Joint {
    Joint(PitchState.History(PitchState.Initial(config), [], [], PitchState.Session({}, [])),
          RoomLeg.InitialHistory, {})
  }

  predicate IsAnswer(e: PitchState.Event) {
    e.IntentApplied? || e.IntentRejected? || e.IntentReset?
  }

  /** The token of the intent command an event makes the bridge offer. */
  function Offered(env: PitchState.Env, s: PitchState.Pitches, e: PitchState.Event): Option<nat> {
    var sent := PitchState.Handle(env, s, e).1;
    if sent == [] then None else PitchIntents.TokenOf(sent[0].command)
  }

  /** What the bridge is told about a delivery, `applied` being the room's verdict in an outcome. */
  function Told(d: RoomLeg.Delivery, applied: bool, other: Option<PitchState.Event>): Option<PitchState.Event> {
    match d
    case GotOutcome(t) => Some(if applied then PitchState.IntentApplied(t) else PitchState.IntentRejected(t))
    case GotReset(through, _, _) => Some(PitchState.IntentReset(through))
    case GotOther(_) => other
    case GotLosses(_) => None
  }

  function Hear(env: PitchState.Env, h: PitchState.History, e: Option<PitchState.Event>): PitchState.History {
    if e.None? then h else PitchState.Step(env, h, e.value)
  }

  function Next(env: PitchState.Env, j: Joint, m: Move): Joint {
    match m
    case Worker(e) =>
      var t := Offered(env, j.bridge.now, e);
      j.(bridge := PitchState.Step(env, j.bridge, e),
         leg := if t.Some? then RoomLeg.Step(j.leg, RoomLeg.DoSubmit(RoomLeg.PitchIntent(t.value))) else j.leg)
    case Room(a) => j.(leg := RoomLeg.Step(j.leg, a))
    case Poll(applied, other) =>
      var d := RoomLeg.Poll(j.leg.leg, j.leg.processed).1;
      Joint(if d.Some? then Hear(env, j.bridge, Told(d.value, applied, other)) else j.bridge,
            RoomLeg.Step(j.leg, RoomLeg.DoPoll),
            if d.Some? && d.value.GotOutcome? && applied then j.applied + {d.value.token} else j.applied)
  }

  /**
   Answers come only by polling, intents only from the worker, and the worker sees the
   leg's own answer to each intent it offers.
   */
  predicate Allowed(env: PitchState.Env, j: Joint, m: Move) {
    match m
    case Worker(e) =>
      && !IsAnswer(e)
      && (Offered(env, j.bridge.now, e).Some? ==>
            PitchState.Handle(env, j.bridge.now, e).1[0].accepted
            == RoomLeg.Submit(j.leg.leg, RoomLeg.PitchIntent(Offered(env, j.bridge.now, e).value)).1)
    case Room(a) => !a.DoPoll? && (a.DoSubmit? ==> a.command.OtherCommand?)
    case Poll(_, other) => other.Some? ==> !IsAnswer(other.value) && Offered(env, j.bridge.now, other.value).None?
  }

  function Run(env: PitchState.Env, config: PitchState.Config, moves: seq<Move>): Joint {
    if moves == [] then Start(config)
    else Next(env, Run(env, config, moves[..|moves| - 1]), moves[|moves| - 1])
  }

  ghost predicate AllowedRun(env: PitchState.Env, config: PitchState.Config, moves: seq<Move>) {
    forall k :: 0 <= k < |moves| ==> Allowed(env, Run(env, config, moves[..k]), moves[k])
  }

  // ---- Invariant --------------------------------------------------------------

  predicate DeliveryBelow(d: RoomLeg.Delivery, bound: nat) {
    match d
    case GotOutcome(t) => t < bound
    case GotReset(through, _, _) => through < bound
    case GotOther(_) => true
    case GotLosses(_) => true
  }

  /** Nothing the leg holds or has said names a token the bridge has yet to issue. */
  ghost predicate LegBelow(h: RoomLeg.History, bound: nat) {
    && h.leg.abandoned < bound && h.leg.highest < bound
    && (forall c :: c in h.leg.commands && c.PitchIntent? ==> c.token < bound)
    && (forall e :: e in h.leg.events && e.Outcome? ==> e.token < bound)
    && (forall d :: d in h.out ==> DeliveryBelow(d, bound))
    && (forall t :: t in h.accepted ==> t < bound)
  }

  /** A pending intent was accepted, and if it was answered at all it was answered Applied. */
  ghost predicate PendingOk(pending: map<PitchState.Degree, PitchState.Intent>, leg: RoomLeg.History,
                            applied: set<nat>) {
    forall d :: d in pending ==>
      && pending[d].token in leg.accepted
      && (RoomLeg.Settled(leg.out, pending[d].token) ==> pending[d].token in applied)
  }

  ghost predicate JointInv(j: Joint) {
    && PitchIntents.IntentInv(j.bridge)
    && RoomLeg.HistoryInv(j.leg)
    && LegBelow(j.leg, j.bridge.now.nextToken)
    && PendingOk(j.bridge.now.pending, j.leg, j.applied)
  }

  lemma LegKeepsBelow(h: RoomLeg.History, a: RoomLeg.Action, bound: nat, bound': nat)
    requires LegBelow(h, bound) && bound <= bound'
    requires a.DoSubmit? && a.command.PitchIntent? ==> a.command.token < bound'
    ensures LegBelow(RoomLeg.Step(h, a), bound')
  {
    forall d | d in h.out ensures DeliveryBelow(d, bound') {
      assert DeliveryBelow(d, bound);
    }
  }

  /** No delivery so far can have settled a token yet to be issued. */
  lemma UnsaidIsUnsettled(h: RoomLeg.History, bound: nat, t: nat)
    requires LegBelow(h, bound) && bound <= t
    ensures !RoomLeg.Settled(h.out, t)
  {
    forall i | 0 <= i < |h.out| ensures !RoomLeg.Settles(h.out[i], t) {
      assert DeliveryBelow(h.out[i], bound);
    }
  }

  /** An event that issues nothing adds nothing to what is pending. */
  lemma QuietEvent(env: PitchState.Env, h: PitchState.History, e: PitchState.Event)
    requires h.now.nextToken <= PitchState.MAX_TOKEN && Offered(env, h.now, e).None?
    ensures var s' := PitchState.Step(env, h, e).now;
            s'.nextToken == h.now.nextToken && PitchIntents.SubMap(s'.pending, h.now.pending)
  {
    PitchIntents.HandleShape(env, h.now, e);
  }

  /** An event that issues a token makes pending what was pending, or carries that token if it was taken. */
  lemma IssuingEvent(env: PitchState.Env, h: PitchState.History, e: PitchState.Event, d: PitchState.Degree)
    requires h.now.nextToken <= PitchState.MAX_TOKEN && Offered(env, h.now, e).Some?
    ensures var (s', sent) := PitchState.Handle(env, h.now, e);
            && Offered(env, h.now, e) == Some(h.now.nextToken) && s'.nextToken == h.now.nextToken + 1
            && (d in s'.pending ==>
                  || (d in h.now.pending && s'.pending[d] == h.now.pending[d])
                  || (sent[0].accepted && s'.pending[d].token == h.now.nextToken))
  {
    PitchIntents.HandleShape(env, h.now, e);
    var sent := PitchState.Handle(env, h.now, e).1;
    var entries := PitchState.IntentsOf(sent[0]);
    PitchIntents.TrackLookup(h.now.pending, entries, d);
    if PitchIntents.Latest(entries, d).Some? {
      PitchIntents.LatestOccurs(entries, d);
    }
  }

  lemma WorkerKeeps(env: PitchState.Env, j: Joint, e: PitchState.Event)
    requires JointInv(j) && Allowed(env, j, Worker(e))
    ensures JointInv(Next(env, j, Worker(e)))
  {
    PitchIntents.StepKeepsIntents(env, j.bridge, e);
    var t := Offered(env, j.bridge.now, e);
    if t.None? {
      QuietEvent(env, j.bridge, e);
    } else {
      IntentOffered(env, j, e);
    }
  }

  lemma IntentOffered(env: PitchState.Env, j: Joint, e: PitchState.Event)
    requires JointInv(j) && Allowed(env, j, Worker(e)) && Offered(env, j.bridge.now, e).Some?
    ensures var j' := Next(env, j, Worker(e));
            && RoomLeg.HistoryInv(j'.leg) && LegBelow(j'.leg, j'.bridge.now.nextToken)
            && PendingOk(j'.bridge.now.pending, j'.leg, j'.applied)
  {
    var n := j.bridge.now.nextToken;
    var submit := RoomLeg.DoSubmit(RoomLeg.PitchIntent(n));
    var j' := Next(env, j, Worker(e));
    forall d | d in j'.bridge.now.pending
      ensures j'.bridge.now.pending[d].token in j'.leg.accepted
      ensures RoomLeg.Settled(j'.leg.out, j'.bridge.now.pending[d].token) ==>
              j'.bridge.now.pending[d].token in j'.applied
    {
      IssuingEvent(env, j.bridge, e, d);
      UnsaidIsUnsettled(j.leg, n, n);
    }
    IssuingEvent(env, j.bridge, e, PitchState.Degree(0, 0));
    LegKeepsBelow(j.leg, submit, n, n + 1);
    assert RoomLeg.FreshToken(j.leg, submit);
    RoomLeg.StepKeeps(j.leg, submit);
  }

  lemma RoomKeeps(env: PitchState.Env, j: Joint, a: RoomLeg.Action)
    requires JointInv(j) && Allowed(env, j, Room(a))
    ensures JointInv(Next(env, j, Room(a)))
  {
    RoomLeg.StepKeeps(j.leg, a);
    LegKeepsBelow(j.leg, a, j.bridge.now.nextToken, j.bridge.now.nextToken);
  }

  /** The delivery that settles an intent either told the bridge it was applied or withdrew it. */
  lemma ToldWithdraws(env: PitchState.Env, h: PitchState.History, d: RoomLeg.Delivery, applied: bool,
                      other: Option<PitchState.Event>, c: PitchState.Degree)
    requires h.now.nextToken <= PitchState.MAX_TOKEN
    requires other.Some? ==> Offered(env, h.now, other.value).None?
    ensures var s' := Hear(env, h, Told(d, applied, other)).now;
            && s'.nextToken == h.now.nextToken
            && (c in s'.pending ==> c in h.now.pending && s'.pending[c] == h.now.pending[c])
            && (c in s'.pending && RoomLeg.Settles(d, s'.pending[c].token) ==>
                  d == RoomLeg.GotOutcome(s'.pending[c].token) && applied)
  {
    var told := Told(d, applied, other);
    if told.Some? {
      QuietEvent(env, h, told.value);
    }
  }

  lemma SettledLast(out: seq<RoomLeg.Delivery>, d: RoomLeg.Delivery, t: nat)
    requires RoomLeg.Settled(out + [d], t)
    ensures RoomLeg.Settled(out, t) || RoomLeg.Settles(d, t)
  {
    var i :| 0 <= i < |out + [d]| && RoomLeg.Settles((out + [d])[i], t);
    if i < |out| {
      assert RoomLeg.Settles(out[i], t);
    }
  }

  lemma PollPending(env: PitchState.Env, j: Joint, applied: bool, other: Option<PitchState.Event>, d: RoomLeg.Delivery)
    requires JointInv(j) && Allowed(env, j, Poll(applied, other))
    requires RoomLeg.Poll(j.leg.leg, j.leg.processed).1 == Some(d)
    ensures var j' := Next(env, j, Poll(applied, other));
            && j'.bridge.now.nextToken == j.bridge.now.nextToken
            && PendingOk(j'.bridge.now.pending, j'.leg, j'.applied)
  {
    var j' := Next(env, j, Poll(applied, other));
    ToldWithdraws(env, j.bridge, d, applied, other, PitchState.Degree(0, 0));
    forall c | c in j'.bridge.now.pending
      ensures j'.bridge.now.pending[c].token in j'.leg.accepted
      ensures RoomLeg.Settled(j'.leg.out, j'.bridge.now.pending[c].token) ==>
                j'.bridge.now.pending[c].token in j'.applied
    {
      ToldWithdraws(env, j.bridge, d, applied, other, c);
      if RoomLeg.Settled(j'.leg.out, j'.bridge.now.pending[c].token) {
        SettledLast(j.leg.out, d, j'.bridge.now.pending[c].token);
      }
    }
  }

  lemma HearKeepsIntents(env: PitchState.Env, h: PitchState.History, e: Option<PitchState.Event>)
    requires PitchIntents.IntentInv(h)
    ensures PitchIntents.IntentInv(Hear(env, h, e))
  {
    if e.Some? {
      PitchIntents.StepKeepsIntents(env, h, e.value);
    }
  }

  lemma PollKeeps(env: PitchState.Env, j: Joint, applied: bool, other: Option<PitchState.Event>)
    requires JointInv(j) && Allowed(env, j, Poll(applied, other))
    ensures JointInv(Next(env, j, Poll(applied, other)))
  {
    RoomLeg.StepKeeps(j.leg, RoomLeg.DoPoll);
    LegKeepsBelow(j.leg, RoomLeg.DoPoll, j.bridge.now.nextToken, j.bridge.now.nextToken);
    var delivery := RoomLeg.Poll(j.leg.leg, j.leg.processed).1;
    if delivery.Some? {
      HearKeepsIntents(env, j.bridge, Told(delivery.value, applied, other));
      PollPending(env, j, applied, other, delivery.value);
    }
  }

  lemma {:induction false} RunKeepsJoint(env: PitchState.Env, config: PitchState.Config, moves: seq<Move>)
    requires AllowedRun(env, config, moves)
    ensures JointInv(Run(env, config, moves))
  {
    if moves == [] {
      PitchIntents.RunKeepsIntents(env, config, []);
    } else {
      var before, m := moves[..|moves| - 1], moves[|moves| - 1];
      forall k | 0 <= k < |before| ensures Allowed(env, Run(env, config, before[..k]), before[k]) {
        assert before[..k] == moves[..k];
      }
      RunKeepsJoint(env, config, before);
      var j := Run(env, config, before);
      match m
      case Worker(e) => WorkerKeeps(env, j, e);
      case Room(a) => RoomKeeps(env, j, a);
      case Poll(applied, other) => PollKeeps(env, j, applied, other);
    }
  }

  // ---- Main result ------------------------------------------------------------

  /**
   In every joint run, however the channels saturate and whether or not the worker
   dies: an intent still pending was accepted by the leg, and once the leg has been
   drained the bridge was told that the room applied it.
   */
  lemma PendingOnceDrainedWasApplied(env: PitchState.Env, config: PitchState.Config, moves: seq<Move>,
                                     d: PitchState.Degree)
    requires AllowedRun(env, config, moves)
    requires d in Run(env, config, moves).bridge.now.pending
    ensures var j := Run(env, config, moves);
            var t := j.bridge.now.pending[d].token;
            && t in j.leg.accepted
            && (RoomLeg.Drained(j.leg) ==> t in j.applied)
  {
    RunKeepsJoint(env, config, moves);
    var j := Run(env, config, moves);
    var t := j.bridge.now.pending[d].token;
    if RoomLeg.Drained(j.leg) {
      var i :| 0 <= i < |j.leg.accepted| && j.leg.accepted[i] == t;
      RoomLeg.DrainedIsSettled(j.leg, i);
    }
  }
}
