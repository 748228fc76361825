/**
 The native room leg seen from the bridge: a bounded command channel into a
 worker, a bounded event channel back, and the two counters that stand in for
 outcomes a full event channel could not carry.

 Every accepted pitch intent has a token. What happens to the token is the whole
 subject of this module; other commands and events only take up room.
 */
module RoomLeg {
  import opened Prelude

  const COMMAND_CAPACITY: nat := 64
  const EVENT_CAPACITY: nat := 256

  datatype RoomCommand = PitchIntent(token: nat) | OtherCommand

  datatype RoomEvent = Outcome(token: nat) | OtherEvent(id: nat)

  /**
   What polling hands to the bridge. `processed` records how many accepted intents
   the worker had taken from its queue at that moment; `stopped` marks the final
   reset that follows the worker's death.
   */
  datatype Delivery =
    | GotOutcome(token: nat)
    | GotReset(through: nat, stopped: bool, processed: nat)
    | GotOther(id: nat)
    | GotLosses(count: nat)

  datatype Leg = Leg(
    commands: seq<RoomCommand>, events: seq<RoomEvent>,
    abandoned: nat, dropped: nat, highest: nat, disconnectReported: bool, alive: bool)

  /** `accepted` are the tokens the leg took, in order; the first `processed` of them left the queue. */
  datatype History = History(leg: Leg, accepted: seq<nat>, processed: nat, out: seq<Delivery>)

  const InitialHistory: History := History(Leg([], [], 0, 0, 0, false, true), [], 0, [])

  function Max(a: nat, b: nat): nat {
    if a < b then b else a
  }

  function Submit(leg: Leg, c: RoomCommand): (Leg, bool) {
    if !leg.alive || |leg.commands| >= COMMAND_CAPACITY then (leg, false)
    else
      (leg.(commands := leg.commands + [c],
            highest := if c.PitchIntent? then Max(leg.highest, c.token) else leg.highest), true)
  }

  /** A full channel turns an outcome into an abandoned token and loses anything else. */
  function Send(leg: Leg, e: RoomEvent): Leg {
    if |leg.events| < EVENT_CAPACITY then leg.(events := leg.events + [e])
    else if e.Outcome? then leg.(abandoned := Max(leg.abandoned, e.token))
    else leg.(dropped := leg.dropped + 1)
  }

  /** The worker takes one command. A pitch intent always ends in an outcome, applied or rejected. */
  function Work(leg: Leg): Leg {
    if !leg.alive || leg.commands == [] then leg
    else
      var leg' := leg.(commands := leg.commands[1..]);
      match leg.commands[0]
      case PitchIntent(token) => Send(leg', Outcome(token))
      case OtherCommand => leg'
  }

  function Poll(leg: Leg, processed: nat): (Leg, Option<Delivery>) {
    if leg.abandoned != 0 then (leg.(abandoned := 0), Some(GotReset(leg.abandoned, false, processed)))
    else if leg.events != [] then
      (leg.(events := leg.events[1..]),
       Some(if leg.events[0].Outcome? then GotOutcome(leg.events[0].token) else GotOther(leg.events[0].id)))
    else if leg.alive then
      if leg.dropped != 0 then (leg.(dropped := 0), Some(GotLosses(leg.dropped))) else (leg, None)
    else if !leg.disconnectReported then
      (leg.(disconnectReported := true), Some(GotReset(leg.highest, true, processed)))
    else (leg, None)
  }

  datatype Action = DoSubmit(command: RoomCommand) | DoWork | DoSend(id: nat) | DoStop | DoPoll

  function Step(h: History, a: Action): History {
    match a
    case DoSubmit(c) =>
      var (leg, ok) := Submit(h.leg, c);
      h.(leg := leg, accepted := if ok && c.PitchIntent? then h.accepted + [c.token] else h.accepted)
    case DoWork =>
      if !h.leg.alive || h.leg.commands == [] then h
      else
        h.(leg := Work(h.leg), processed := if h.leg.commands[0].PitchIntent? then h.processed + 1 else h.processed)
    case DoSend(id) => if h.leg.alive then h.(leg := Send(h.leg, OtherEvent(id))) else h
    case DoStop => h.(leg := h.leg.(alive := false, commands := []))
    case DoPoll =>
      var (leg, d) := Poll(h.leg, h.processed);
      h.(leg := leg, out := if d.Some? then h.out + [d.value] else h.out)
  }

  function Run(actions: seq<Action>): History {
    if actions == [] then InitialHistory else Step(Run(actions[..|actions| - 1]), actions[|actions| - 1])
  }

  /** The bridge allocates tokens upward from 1 and never reuses one. */
  ghost predicate FreshToken(h: History, a: Action) {
    a.DoSubmit? && a.command.PitchIntent? ==>
      0 < a.command.token && forall i :: 0 <= i < |h.accepted| ==> h.accepted[i] < a.command.token
  }

  ghost predicate FreshRun(actions: seq<Action>) {
    forall i :: 0 <= i < |actions| ==> FreshToken(Run(actions[..i]), actions[i])
  }

  // ---- Invariant --------------------------------------------------------------

  function Tokens(commands: seq<RoomCommand>): seq<nat> {
    if commands == [] then []
    else (if commands[0].PitchIntent? then [commands[0].token] else []) + Tokens(commands[1..])
  }

  ghost predicate Settles(d: Delivery, token: nat) {
    match d
    case GotOutcome(t) => t == token
    case GotReset(through, _, _) => token <= through
    case GotOther(_) => false
    case GotLosses(_) => false
  }

  ghost predicate Settled(out: seq<Delivery>, token: nat) {
    exists i :: 0 <= i < |out| && Settles(out[i], token)
  }

  /** Where a processed token can be. */
  ghost predicate Accounted(h: History, token: nat) {
    || Outcome(token) in h.leg.events
    || token <= h.leg.abandoned
    || Settled(h.out, token)
  }

  ghost predicate ResetJustified(accepted: seq<nat>, d: Delivery) {
    d.GotReset? && !d.stopped ==> d.processed <= |accepted| && d.through in accepted[..d.processed]
  }

  ghost predicate TokenInv(h: History) {
    && h.processed <= |h.accepted|
    && (forall i, j :: 0 <= i < j < |h.accepted| ==> h.accepted[i] < h.accepted[j])
    && (forall i :: 0 <= i < |h.accepted| ==> 0 < h.accepted[i] <= h.leg.highest)
    && (h.leg.alive ==> Tokens(h.leg.commands) == h.accepted[h.processed..])
  }

  ghost predicate HistoryInv(h: History) {
    && TokenInv(h)
    && (forall i :: 0 <= i < h.processed ==> Accounted(h, h.accepted[i]))
    && (!h.leg.alive && h.leg.disconnectReported ==> forall i :: 0 <= i < |h.accepted| ==>
        Settled(h.out, h.accepted[i]))
    && (h.leg.alive ==> !h.leg.disconnectReported)
    && (h.leg.abandoned != 0 ==> h.leg.abandoned in h.accepted[..h.processed])
    && (forall i :: 0 <= i < |h.out| ==> ResetJustified(h.accepted, h.out[i]))
  }

  lemma {:induction false} TokensSnoc(commands: seq<RoomCommand>, c: RoomCommand)
    ensures Tokens(commands + [c]) == Tokens(commands) + (if c.PitchIntent? then [c.token] else [])
  {
    if commands == [] {
      assert commands + [c] == [c];
      assert [c][1..] == [];
    } else {
      TokensSnoc(commands[1..], c);
      assert (commands + [c])[0] == commands[0] && (commands + [c])[1..] == commands[1..] + [c];
    }
  }

  lemma SettledGrows(out: seq<Delivery>, d: Delivery, token: nat)
    requires Settled(out, token) || Settles(d, token)
    ensures Settled(out + [d], token)
  {
    if Settled(out, token) {
      var i :| 0 <= i < |out| && Settles(out[i], token);
      assert (out + [d])[i] == out[i];
    } else {
      assert (out + [d])[|out|] == d;
    }
  }

  lemma SubmitKeeps(h: History, c: RoomCommand)
    requires HistoryInv(h) && FreshToken(h, DoSubmit(c))
    ensures HistoryInv(Step(h, DoSubmit(c)))
  {
    var h' := Step(h, DoSubmit(c));
    if Submit(h.leg, c).1 {
      TokensSnoc(h.leg.commands, c);
      assert h.accepted <= h'.accepted;
      forall i | 0 <= i < |h.out| ensures ResetJustified(h'.accepted, h.out[i]) {
        assert ResetJustified(h.accepted, h.out[i]);
        if h.out[i].GotReset? && !h.out[i].stopped {
          assert h'.accepted[..h.out[i].processed] == h.accepted[..h.out[i].processed];
        }
      }
      assert h'.accepted[..h.processed] == h.accepted[..h.processed];
      forall i | 0 <= i < h'.processed ensures Accounted(h', h'.accepted[i]) {
        assert Accounted(h, h.accepted[i]);
      }
    }
  }

  lemma SendAccounts(h: History, leg: Leg, e: RoomEvent, token: nat)
    requires leg.events == h.leg.events && leg.abandoned == h.leg.abandoned
    requires Accounted(h, token) || (e.Outcome? && e.token == token)
    ensures Accounted(h.(leg := Send(leg, e)), token)
  {
  }

  lemma WorkKeeps(h: History)
    requires HistoryInv(h)
    ensures HistoryInv(Step(h, DoWork))
  {
    if h.leg.alive && h.leg.commands != [] {
      var c := h.leg.commands[0];
      var leg := h.leg.(commands := h.leg.commands[1..]);
      var h' := Step(h, DoWork);
      if c.PitchIntent? {
        assert Tokens(h.leg.commands) == [c.token] + Tokens(leg.commands);
        assert h.accepted[h.processed] == c.token;
        assert h.accepted[h.processed..][1..] == h.accepted[h.processed + 1..];
        assert h.accepted[..h.processed + 1] == h.accepted[..h.processed] + [c.token];
        forall i | 0 <= i < h'.processed ensures Accounted(h', h'.accepted[i]) {
          if i < h.processed {
            assert Accounted(h, h.accepted[i]);
          }
          SendAccounts(h, leg, Outcome(c.token), h.accepted[i]);
        }
      } else {
        forall i | 0 <= i < h'.processed ensures Accounted(h', h'.accepted[i]) {
          assert Accounted(h, h.accepted[i]);
        }
      }
    }
  }

  lemma SendKeeps(h: History, id: nat)
    requires HistoryInv(h)
    ensures HistoryInv(Step(h, DoSend(id)))
  {
    forall i | 0 <= i < h.processed ensures Accounted(Step(h, DoSend(id)), h.accepted[i]) {
      SendAccounts(h, h.leg, OtherEvent(id), h.accepted[i]);
    }
  }

  /** Polling moves a token from its queue to the deliveries, never out of sight. */
  lemma PollAccounts(h: History, token: nat)
    requires Accounted(h, token)
    ensures Accounted(Step(h, DoPoll), token)
  {
    var (leg, d) := Poll(h.leg, h.processed);
    if d.Some? && (Settled(h.out, token) || Settles(d.value, token)) {
      SettledGrows(h.out, d.value, token);
    } else if Outcome(token) in h.leg.events && leg.events != h.leg.events {
      assert h.leg.events == [h.leg.events[0]] + leg.events;
    }
  }

  lemma PollKeeps(h: History)
    requires HistoryInv(h)
    ensures HistoryInv(Step(h, DoPoll))
  {
    var (leg, d) := Poll(h.leg, h.processed);
    var h' := Step(h, DoPoll);
    forall i | 0 <= i < h.processed ensures Accounted(h', h.accepted[i]) {
      assert Accounted(h, h.accepted[i]);
      PollAccounts(h, h.accepted[i]);
    }
    if d.Some? {
      forall i | 0 <= i < |h'.out| ensures ResetJustified(h.accepted, h'.out[i]) {
        if i < |h.out| {
          assert ResetJustified(h.accepted, h.out[i]);
        }
      }
      if !leg.alive && leg.disconnectReported {
        forall i | 0 <= i < |h.accepted| ensures Settled(h'.out, h.accepted[i]) {
          if h.leg.disconnectReported {
            assert Settled(h.out, h.accepted[i]);
          }
          SettledGrows(h.out, d.value, h.accepted[i]);
        }
      }
    }
  }

  lemma StopKeeps(h: History)
    requires HistoryInv(h)
    ensures HistoryInv(Step(h, DoStop))
  {
    forall i | 0 <= i < h.processed ensures Accounted(Step(h, DoStop), h.accepted[i]) {
      assert Accounted(h, h.accepted[i]);
    }
  }

  lemma {:induction false} RunKeeps(actions: seq<Action>)
    requires FreshRun(actions)
    ensures HistoryInv(Run(actions))
  {
    if actions != [] {
      var before := actions[..|actions| - 1];
      var a := actions[|actions| - 1];
      forall i | 0 <= i < |before| ensures FreshToken(Run(before[..i]), before[i]) {
        assert before[..i] == actions[..i];
      }
      RunKeeps(before);
      assert actions[..|before|] == before;
      StepKeeps(Run(before), a);
    }
  }

  lemma StepKeeps(h: History, a: Action)
    requires HistoryInv(h) && FreshToken(h, a)
    ensures HistoryInv(Step(h, a))
  {
    match a
    case DoSubmit(c) => SubmitKeeps(h, c);
    case DoWork => WorkKeeps(h);
    case DoSend(id) => SendKeeps(h, id);
    case DoStop => StopKeeps(h);
    case DoPoll => PollKeeps(h);
  }

  // ---- What the bridge may rely on ----------------------------------------------

  /** Nothing left to hand out, and nothing the worker still has to do. */
  predicate Drained(h: History) {
    Poll(h.leg, h.processed).1.None? && (h.leg.alive ==> h.leg.commands == [])
  }

  /**
   However the queues saturate, and whether or not the worker dies: once polling
   has drained the leg, every accepted token is the subject of a delivered outcome
   or covered by a delivered reset.
   */
  lemma EveryAcceptedIntentIsSettled(actions: seq<Action>, i: nat)
    requires FreshRun(actions) && Drained(Run(actions)) && i < |Run(actions).accepted|
    ensures Settled(Run(actions).out, Run(actions).accepted[i])
  {
    RunKeeps(actions);
    DrainedIsSettled(Run(actions), i);
  }

  lemma DrainedIsSettled(h: History, i: nat)
    requires HistoryInv(h) && Drained(h) && i < |h.accepted|
    ensures Settled(h.out, h.accepted[i])
  {
    if h.leg.alive {
      assert |h.accepted[h.processed..]| == 0;
      assert Accounted(h, h.accepted[i]);
    }
  }

  /**
   Short of the worker's death, a reset never covers an intent the worker had not
   yet taken from its queue when the reset was delivered.
   */
  lemma ResetsNeverCoverUnprocessedIntents(actions: seq<Action>, k: nat, i: nat)
    requires FreshRun(actions) && k < |Run(actions).out| && i < |Run(actions).accepted|
    requires var d := Run(actions).out[k]; d.GotReset? && !d.stopped && d.processed <= i
    ensures Run(actions).out[k].through < Run(actions).accepted[i]
  {
    RunKeeps(actions);
    var h := Run(actions);
    var d := h.out[k];
    assert ResetJustified(h.accepted, d);
    var j :| 0 <= j < d.processed && h.accepted[j] == d.through;
  }

  function FinalResets(out: seq<Delivery>): nat {
    if out == [] then 0
    else FinalResets(out[..|out| - 1]) + if out[|out| - 1].GotReset? && out[|out| - 1].stopped then 1 else 0
  }

  lemma FinalOne(out: seq<Delivery>, d: Delivery)
    ensures FinalResets(out + [d]) == FinalResets(out) + if d.GotReset? && d.stopped then 1 else 0
  {
    assert (out + [d])[..|out|] == out;
  }

  lemma FinalStep(h: History, a: Action)
    requires h.leg.alive ==> !h.leg.disconnectReported
    requires FinalResets(h.out) == if h.leg.disconnectReported then 1 else 0
    ensures var h' := Step(h, a);
            && FinalResets(h'.out) == (if h'.leg.disconnectReported then 1 else 0)
            && (h'.leg.alive ==> !h'.leg.disconnectReported)
  {
    if a.DoPoll? && Poll(h.leg, h.processed).1.Some? {
      FinalOne(h.out, Poll(h.leg, h.processed).1.value);
    }
  }

  /** The one reset that may cover unprocessed intents comes after the worker's death, and only once. */
  lemma {:induction false} FinalResetIsOnce(actions: seq<Action>)
    ensures var h := Run(actions);
            && FinalResets(h.out) == (if h.leg.disconnectReported then 1 else 0)
            && (h.leg.alive ==> !h.leg.disconnectReported)
  {
    if actions != [] {
      FinalResetIsOnce(actions[..|actions| - 1]);
      FinalStep(Run(actions[..|actions| - 1]), actions[|actions| - 1]);
    }
  }

  /** Deliveries still waiting to be polled. */
  function Waiting(leg: Leg): nat {
    |leg.events| + (if leg.abandoned != 0 then 1 else 0)
    + (if leg.alive && leg.dropped != 0 then 1 else 0)
    + (if !leg.alive && !leg.disconnectReported then 1 else 0)
  }

  function Polls(leg: Leg, processed: nat, n: nat): Leg
    decreases n
  {
    if n == 0 then leg else Polls(Poll(leg, processed).0, processed, n - 1)
  }

  /** Left alone, the leg drains in exactly as many polls as it has deliveries waiting. */
  lemma {:induction false} PollingDrains(leg: Leg, processed: nat)
    ensures Poll(Polls(leg, processed, Waiting(leg)), processed).1.None?
    ensures forall n: nat :: n < Waiting(leg) ==> Poll(Polls(leg, processed, n), processed).1.Some?
    decreases Waiting(leg)
  {
    var leg' := Poll(leg, processed).0;
    if Waiting(leg) > 0 {
      assert Waiting(leg') == Waiting(leg) - 1;
      PollingDrains(leg', processed);
      forall n: nat | n < Waiting(leg) ensures Poll(Polls(leg, processed, n), processed).1.Some? {
        if n > 0 {
          assert Polls(leg, processed, n) == Polls(leg', processed, n - 1);
        }
      }
    }
  }

  // ---- In order, and counted ---------------------------------------------------------

  /** What the worker tries to send in a step, in the state before it. */
  function Sends(h: History, a: Action): Option<RoomEvent> {
    match a
    case DoWork =>
      if h.leg.alive && h.leg.commands != [] && h.leg.commands[0].PitchIntent?
      then Some(Outcome(h.leg.commands[0].token)) else None
    case DoSend(id) => if h.leg.alive then Some(OtherEvent(id)) else None
    case _ => None
  }

  /** All the worker sent while its event channel had room, in order. */
  function GotThrough(actions: seq<Action>): seq<RoomEvent> {
    if actions == [] then []
    else
      var h, a := Run(actions[..|actions| - 1]), actions[|actions| - 1];
      GotThrough(actions[..|actions| - 1])
      + if Sends(h, a).Some? && |h.leg.events| < EVENT_CAPACITY then [Sends(h, a).value] else []
  }

  /** How many events other than outcomes met a full channel. */
  function Refused(actions: seq<Action>): nat {
    if actions == [] then 0
    else
      var h, a := Run(actions[..|actions| - 1]), actions[|actions| - 1];
      Refused(actions[..|actions| - 1])
      + if Sends(h, a).Some? && Sends(h, a).value.OtherEvent? && |h.leg.events| >= EVENT_CAPACITY then 1 else 0
  }

  /** The worker's own events among the deliveries. */
  function Delivered(out: seq<Delivery>): seq<RoomEvent> {
    if out == [] then []
    else
      Delivered(out[..|out| - 1])
      + match out[|out| - 1]
        case GotOutcome(token) => [Outcome(token)]
        case GotOther(id) => [OtherEvent(id)]
        case _ => []
  }

  function Reported(out: seq<Delivery>): nat {
    if out == [] then 0
    else Reported(out[..|out| - 1]) + if out[|out| - 1].GotLosses? then out[|out| - 1].count else 0
  }

  lemma DeliverOne(out: seq<Delivery>, d: Delivery)
    ensures Delivered(out + [d]) == Delivered(out) + (match d
                                                     case GotOutcome(token) => [Outcome(token)]
                                                     case GotOther(id) => [OtherEvent(id)]
                                                     case _ => [])
    ensures Reported(out + [d]) == Reported(out) + if d.GotLosses? then d.count else 0
  {
    assert (out + [d])[..|out|] == out;
  }

  lemma StepInOrder(h: History, a: Action)
    ensures var h' := Step(h, a);
            var sent := Sends(h, a);
            && Delivered(h'.out) + h'.leg.events
               == Delivered(h.out) + h.leg.events
                  + (if sent.Some? && |h.leg.events| < EVENT_CAPACITY then [sent.value] else [])
            && Reported(h'.out) + h'.leg.dropped
               == Reported(h.out) + h.leg.dropped
                  + if sent.Some? && sent.value.OtherEvent? && |h.leg.events| >= EVENT_CAPACITY then 1 else 0
  {
    if a.DoPoll? {
      PollInOrder(h);
    }
  }

  lemma PollInOrder(h: History)
    ensures var h' := Step(h, DoPoll);
            && Delivered(h'.out) + h'.leg.events == Delivered(h.out) + h.leg.events
            && Reported(h'.out) + h'.leg.dropped == Reported(h.out) + h.leg.dropped
  {
    var (leg, d) := Poll(h.leg, h.processed);
    if d.Some? {
      DeliverOne(h.out, d.value);
      if leg.events != h.leg.events {
        assert h.leg.events == [h.leg.events[0]] + leg.events;
      }
    }
  }

  /**
   In every run what the worker sent while there was room is delivered in the order it was
   sent, none left out and none twice; and every other event but an outcome that met a full
   channel is counted in exactly one report, once the leg has said all it had to say.
   */
  lemma {:induction false} DeliveriesKeepOrder(actions: seq<Action>)
    ensures Delivered(Run(actions).out) + Run(actions).leg.events == GotThrough(actions)
    ensures Reported(Run(actions).out) + Run(actions).leg.dropped == Refused(actions)
  {
    if actions != [] {
      DeliveriesKeepOrder(actions[..|actions| - 1]);
      StepInOrder(Run(actions[..|actions| - 1]), actions[|actions| - 1]);
    }
  }

  function TakenBy(h: History, a: Action): seq<RoomCommand> {
    if a.DoSubmit? && h.leg.alive && |h.leg.commands| < COMMAND_CAPACITY then [a.command] else []
  }

  function WorkedBy(h: History, a: Action): seq<RoomCommand> {
    if a.DoWork? && h.leg.alive && h.leg.commands != [] then [h.leg.commands[0]] else []
  }

  function Taken(actions: seq<Action>): seq<RoomCommand> {
    if actions == [] then []
    else Taken(actions[..|actions| - 1]) + TakenBy(Run(actions[..|actions| - 1]), actions[|actions| - 1])
  }

  function Worked(actions: seq<Action>): seq<RoomCommand> {
    if actions == [] then []
    else Worked(actions[..|actions| - 1]) + WorkedBy(Run(actions[..|actions| - 1]), actions[|actions| - 1])
  }

  lemma CommandStep(h: History, a: Action)
    ensures var h' := Step(h, a);
            h'.leg.alive ==> h.leg.alive && WorkedBy(h, a) + h'.leg.commands == h.leg.commands + TakenBy(h, a)
  {
  }

  lemma Regroup(worked: seq<RoomCommand>, one: seq<RoomCommand>, left: seq<RoomCommand>,
                queue: seq<RoomCommand>, new_: seq<RoomCommand>)
    requires one + left == queue + new_
    ensures (worked + one) + left == (worked + queue) + new_
  {
    assert (worked + one) + left == worked + (one + left);
    assert (worked + queue) + new_ == worked + (queue + new_);
  }

  /** While the worker lives, the commands taken are worked off in the order they came, none lost and none twice. */
  lemma {:induction false} CommandsKeepOrder(actions: seq<Action>)
    ensures Run(actions).leg.alive ==> Worked(actions) + Run(actions).leg.commands == Taken(actions)
  {
    if actions != [] {
      var before, a := actions[..|actions| - 1], actions[|actions| - 1];
      var h := Run(before);
      CommandsKeepOrder(before);
      CommandStep(h, a);
      if Run(actions).leg.alive {
        Regroup(Worked(before), WorkedBy(h, a), Run(actions).leg.commands, h.leg.commands, TakenBy(h, a));
      }
    }
  }

  // ---- The leg as an object ---------------------------------------------------------

  class NativeRoomTransport {
    var commands: seq<RoomCommand>
    var events: seq<RoomEvent>
    var abandoned: nat
    var dropped: nat
    var highest: nat
    var disconnectReported: bool
    var alive: bool

    function State(): Leg
      reads this
    {
      Leg(commands, events, abandoned, dropped, highest, disconnectReported, alive)
    }

    constructor ()
      ensures State() == InitialHistory.leg
    {
      commands, events := [], [];
      abandoned, dropped, highest := 0, 0, 0;
      disconnectReported, alive := false, true;
    }

    method HandleCommand(c: RoomCommand) returns (ok: bool)
      modifies this
      ensures (State(), ok) == Submit(old(State()), c)
    {
      if !alive || |commands| >= COMMAND_CAPACITY {
        return false;
      }
      commands := commands + [c];
      if c.PitchIntent? && highest < c.token {
        highest := c.token;
      }
      return true;
    }

    method SendEvent(e: RoomEvent)
      modifies this
      ensures State() == Send(old(State()), e)
    {
      if |events| < EVENT_CAPACITY {
        events := events + [e];
        return;
      }
      match e {
        case Outcome(token) =>
          if abandoned < token {
            abandoned := token;
          }
        case OtherEvent(_) => dropped := dropped + 1;
      }
    }

    method WorkOnce()
      modifies this
      ensures State() == Work(old(State()))
    {
      if !alive || commands == [] {
        return;
      }
      var c := commands[0];
      commands := commands[1..];
      if c.PitchIntent? {
        SendEvent(Outcome(c.token));
      }
    }

    method PollEvent(ghost processed: nat) returns (d: Option<RoomEvent>, reset: Option<nat>, lost: nat)
      modifies this
      ensures State() == Poll(old(State()), processed).0
      ensures match Poll(old(State()), processed).1
              case None => d.None? && reset.None? && lost == 0
              case Some(GotReset(through, _, _)) => d.None? && reset == Some(through) && lost == 0
              case Some(GotOutcome(token)) => d == Some(Outcome(token)) && reset.None? && lost == 0
              case Some(GotOther(id)) => d == Some(OtherEvent(id)) && reset.None? && lost == 0
              case Some(GotLosses(count)) => d.None? && reset.None? && lost == count
    {
      d, reset, lost := None, None, 0;
      var through := abandoned;
      abandoned := 0;
      if through != 0 {
        reset := Some(through);
      } else if events != [] {
        d := Some(events[0]);
        events := events[1..];
      } else if alive {
        if dropped != 0 {
          lost := dropped;
          dropped := 0;
        }
      } else if !disconnectReported {
        disconnectReported := true;
        reset := Some(highest);
      }
    }
  }
}
