/**
 The host's MIDI endpoint: a shadow of what it was told, reconciled to the room's
 notes through two bounded queues that the audio callback drains releases first.
 */
module HostOutput {
  import opened Prelude

  const NOTES: nat := 128
  const LOWEST: nat := 0

  /** A note-on or note-off. */
  datatype Edge = Edge(note: nat, down: bool)

  /**
   The shadow, the two queues with their capacities, what the audio callback has taken,
   and every edge ever accepted by a queue, in emission order.
   */
  datatype Output = Output(
    on: set<nat>, releases: seq<Edge>, ons: seq<Edge>, releaseCapacity: nat, onCapacity: nat,
    received: seq<Edge>, emitted: seq<Edge>)

  function Apply(on: set<nat>, e: Edge): set<nat> {
    if e.down then on + {e.note} else on - {e.note}
  }

  /** What a listener sounds after hearing `edges`. */
  function Fold(on: set<nat>, edges: seq<Edge>): set<nat> {
    if edges == [] then on else Apply(Fold(on, edges[..|edges| - 1]), edges[|edges| - 1])
  }

  function TryRecv(o: Output): Output {
    if o.releases != [] then o.(releases := o.releases[1..], received := o.received + [o.releases[0]])
    else if o.ons != [] then o.(ons := o.ons[1..], received := o.received + [o.ons[0]])
    else o
  }

  function Drain(o: Output, n: nat): Output
    decreases n
  {
    if n == 0 then o else Drain(TryRecv(o), n - 1)
  }

  predicate Fits(o: Output, e: Edge) {
    if e.down then |o.ons| < o.onCapacity else |o.releases| < o.releaseCapacity
  }

  function Push(o: Output, e: Edge): Output {
    var o1 := o.(on := Apply(o.on, e), emitted := o.emitted + [e]);
    if e.down then o1.(ons := o.ons + [e]) else o1.(releases := o.releases + [e])
  }

  function ReleasesFrom(on: set<nat>, target: set<nat>, n: nat): seq<Edge>
    decreases NOTES - n
  {
    if n >= NOTES then []
    else (if n in on && n !in target then [Edge(n, false)] else []) + ReleasesFrom(on, target, n + 1)
  }

  function AdditionsFrom(on: set<nat>, target: set<nat>, n: nat): seq<Edge>
    decreases NOTES - n
  {
    if n >= NOTES then []
    else (if n !in on && n in target then [Edge(n, true)] else []) + AdditionsFrom(on, target, n + 1)
  }

  function Releases(on: set<nat>, target: set<nat>): seq<Edge> {
    ReleasesFrom(on, target, LOWEST)
  }

  function Additions(on: set<nat>, target: set<nat>): seq<Edge> {
    AdditionsFrom(on, target, LOWEST)
  }

  /** Every edge between the shadow and the target, releases first. */
  function Plan(on: set<nat>, target: set<nat>): seq<Edge> {
    Releases(on, target) + Additions(on, target)
  }

  /**
   Push a plan in order, stopping at the first refusal. Before each push the audio
   callback may receive; `drains` says how often before the k-th.
   */
  function PushAll(o: Output, plan: seq<Edge>, drains: nat -> nat, k: nat): Output
    decreases |plan|
  {
    if plan == [] then o
    else
      var o1 := Drain(o, drains(k));
      if Fits(o1, plan[0]) then PushAll(Push(o1, plan[0]), plan[1..], drains, k + 1) else o1
  }

  /** How many edges of the plan a pass gets accepted. */
  function Taken(o: Output, plan: seq<Edge>, drains: nat -> nat, k: nat): nat
    decreases |plan|
  {
    if plan == [] then 0
    else
      var o1 := Drain(o, drains(k));
      if Fits(o1, plan[0]) then 1 + Taken(Push(o1, plan[0]), plan[1..], drains, k + 1) else 0
  }

  function Pass(o: Output, target: set<nat>, drains: nat -> nat): Output {
    PushAll(o, Plan(o.on, target), drains, 0)
  }

  function Accepted(o: Output, target: set<nat>, drains: nat -> nat): nat {
    Taken(o, Plan(o.on, target), drains, 0)
  }

  /** The notes on which shadow and target differ. */
  function Difference(on: set<nat>, target: set<nat>): set<nat> {
    (on - target) + (target - on)
  }

  ghost predicate InRange(notes: set<nat>) {
    forall n :: n in notes ==> n < NOTES
  }

  function Start(releaseCapacity: nat, onCapacity: nat): Output {
    Output({}, [], [], releaseCapacity, onCapacity, [], [])
  }

  datatype Action = DoPass(target: set<nat>, drains: nat -> nat) | DoReceive

  function Run(o: Output, actions: seq<Action>): Output {
    if actions == [] then o
    else
      var before := Run(o, actions[..|actions| - 1]);
      match actions[|actions| - 1]
      case DoPass(target, drains) => Pass(before, target, drains)
      case DoReceive => TryRecv(before)
  }

  // ---- Folds ------------------------------------------------------------------

  lemma {:induction false} FoldAppend(on: set<nat>, a: seq<Edge>, b: seq<Edge>)
    ensures Fold(on, a + b) == Fold(Fold(on, a), b)
  {
    if b == [] {
      assert a + b == a;
    } else {
      assert (a + b)[..|a + b| - 1] == a + b[..|b| - 1];
      FoldAppend(on, a, b[..|b| - 1]);
    }
  }

  lemma FoldOne(on: set<nat>, e: Edge)
    ensures Fold(on, [e]) == Apply(on, e)
  {
    assert [e][..0] == [];
  }

  lemma FoldCons(on: set<nat>, e: Edge, rest: seq<Edge>)
    ensures Fold(on, [e] + rest) == Fold(Apply(on, e), rest)
  {
    FoldAppend(on, [e], rest);
    FoldOne(on, e);
  }

  /** The edges for `n` all have level `b`. */
  ghost predicate Uniform(edges: seq<Edge>, n: nat, b: bool) {
    forall i :: 0 <= i < |edges| && edges[i].note == n ==> edges[i].down == b
  }

  ghost predicate Mentions(edges: seq<Edge>, n: nat) {
    exists i :: 0 <= i < |edges| && edges[i].note == n
  }

  lemma {:induction false} FoldLevel(on: set<nat>, edges: seq<Edge>, n: nat, b: bool)
    requires Uniform(edges, n, b)
    ensures n in Fold(on, edges) <==> if Mentions(edges, n) then b else n in on
  {
    if edges != [] {
      var k := |edges| - 1;
      assert Uniform(edges[..k], n, b);
      FoldLevel(on, edges[..k], n, b);
      if edges[k].note != n && Mentions(edges, n) {
        var i :| 0 <= i < |edges| && edges[i].note == n;
        assert edges[..k][i].note == n;
      }
    }
  }

  // ---- Plans ------------------------------------------------------------------

  lemma {:induction false} ReleasesAre(on: set<nat>, target: set<nat>, n: nat, m: nat)
    ensures Mentions(ReleasesFrom(on, target, n), m) <==> n <= m < NOTES && m in on && m !in target
    ensures forall i :: 0 <= i < |ReleasesFrom(on, target, n)| ==> !ReleasesFrom(on, target, n)[i].down
    decreases NOTES - n
  {
    if n < NOTES {
      ReleasesAre(on, target, n + 1, m);
      var s, rest := ReleasesFrom(on, target, n), ReleasesFrom(on, target, n + 1);
      MentionsTail(s, rest, m);
    }
  }

  lemma {:induction false} AdditionsAre(on: set<nat>, target: set<nat>, n: nat, m: nat)
    ensures Mentions(AdditionsFrom(on, target, n), m) <==> n <= m < NOTES && m !in on && m in target
    ensures forall i :: 0 <= i < |AdditionsFrom(on, target, n)| ==> AdditionsFrom(on, target, n)[i].down
    decreases NOTES - n
  {
    if n < NOTES {
      AdditionsAre(on, target, n + 1, m);
      var s, rest := AdditionsFrom(on, target, n), AdditionsFrom(on, target, n + 1);
      MentionsTail(s, rest, m);
    }
  }

  lemma MentionsTail(s: seq<Edge>, rest: seq<Edge>, m: nat)
    requires s == rest || (|s| > 0 && s[1..] == rest)
    ensures Mentions(s, m) <==> (s != rest && s[0].note == m) || Mentions(rest, m)
  {
    if s != rest {
      if Mentions(rest, m) {
        var i :| 0 <= i < |rest| && rest[i].note == m;
        assert s[i + 1].note == m;
      }
      if Mentions(s, m) && s[0].note != m {
        var i :| 0 <= i < |s| && s[i].note == m;
        assert rest[i - 1].note == m;
      }
    }
  }

  lemma MentionsAppend(a: seq<Edge>, b: seq<Edge>, m: nat)
    ensures Mentions(a + b, m) <==> Mentions(a, m) || Mentions(b, m)
  {
    if Mentions(a, m) {
      var i :| 0 <= i < |a| && a[i].note == m;
      assert (a + b)[i].note == m;
    }
    if Mentions(b, m) {
      var i :| 0 <= i < |b| && b[i].note == m;
      assert (a + b)[|a| + i].note == m;
    }
    if Mentions(a + b, m) {
      var i :| 0 <= i < |a + b| && (a + b)[i].note == m;
      if i < |a| {
        assert a[i].note == m;
      } else {
        assert b[i - |a|].note == m;
      }
    }
  }

  ghost predicate Ascending(s: seq<Edge>) {
    forall i, j :: 0 <= i < j < |s| ==> s[i].note < s[j].note
  }

  ghost predicate From(s: seq<Edge>, n: nat) {
    forall i :: 0 <= i < |s| ==> n <= s[i].note
  }

  lemma AscendingCons(add: bool, e: Edge, rest: seq<Edge>)
    requires Ascending(rest) && From(rest, e.note + 1)
    ensures var s := (if add then [e] else []) + rest; Ascending(s) && From(s, e.note)
  {
  }

  lemma {:induction false} ReleasesAscend(on: set<nat>, target: set<nat>, n: nat)
    ensures Ascending(ReleasesFrom(on, target, n)) && From(ReleasesFrom(on, target, n), n)
    decreases NOTES - n
  {
    if n < NOTES {
      ReleasesAscend(on, target, n + 1);
      AscendingCons(n in on && n !in target, Edge(n, false), ReleasesFrom(on, target, n + 1));
    }
  }

  lemma {:induction false} AdditionsAscend(on: set<nat>, target: set<nat>, n: nat)
    ensures Ascending(AdditionsFrom(on, target, n)) && From(AdditionsFrom(on, target, n), n)
    decreases NOTES - n
  {
    if n < NOTES {
      AdditionsAscend(on, target, n + 1);
      AscendingCons(n !in on && n in target, Edge(n, true), AdditionsFrom(on, target, n + 1));
    }
  }

  /** Each planned edge changes a level, and no note occurs twice. */
  ghost predicate GoodPlan(on: set<nat>, target: set<nat>, plan: seq<Edge>) {
    && (forall i :: 0 <= i < |plan| ==> plan[i].note in Difference(on, target))
    && (forall i :: 0 <= i < |plan| ==> (plan[i].down <==> plan[i].note in target))
    && (forall i, j :: 0 <= i < j < |plan| ==> plan[i].note != plan[j].note)
  }

  lemma ReleasesCover(on: set<nat>, target: set<nat>, m: nat)
    ensures Mentions(Releases(on, target), m) <==> m < NOTES && m in on && m !in target
  {
    ReleasesAre(on, target, LOWEST, m);
  }

  lemma PlanAt(on: set<nat>, target: set<nat>, i: nat)
    requires i < |Plan(on, target)|
    ensures var e := Plan(on, target)[i];
            && e.note in Difference(on, target)
            && (e.down <==> e.note in target)
            && (e.down <==> i >= |Releases(on, target)|)
  {
    var r, a := Releases(on, target), Additions(on, target);
    var e := Plan(on, target)[i];
    ReleasesAre(on, target, LOWEST, e.note);
    AdditionsAre(on, target, LOWEST, e.note);
    if i < |r| {
      assert r[i] == e;
    } else {
      assert a[i - |r|] == e;
    }
  }

  lemma PlanIsGood(on: set<nat>, target: set<nat>)
    ensures GoodPlan(on, target, Plan(on, target))
  {
    var plan := Plan(on, target);
    forall i | 0 <= i < |plan|
      ensures plan[i].note in Difference(on, target) && (plan[i].down <==> plan[i].note in target)
    {
      PlanAt(on, target, i);
    }
    ReleasesAscend(on, target, LOWEST);
    AdditionsAscend(on, target, LOWEST);
    forall i, j | 0 <= i < j < |plan| ensures plan[i].note != plan[j].note {
      PlanAt(on, target, i);
      PlanAt(on, target, j);
    }
  }

  /** The plan is complete: carried out in full it reaches the target. */
  lemma PlanReaches(on: set<nat>, target: set<nat>)
    requires InRange(on) && InRange(target)
    ensures Fold(on, Plan(on, target)) == target
  {
    PlanIsGood(on, target);
    var plan := Plan(on, target);
    forall n: nat ensures n in Fold(on, plan) <==> n in target {
      ReleasesCover(on, target, n);
      AdditionsAre(on, target, LOWEST, n);
      MentionsAppend(Releases(on, target), Additions(on, target), n);
      FoldLevel(on, plan, n, n in target);
    }
  }

  /** Each edge of a good plan brings the shadow one note closer. */
  lemma {:induction false} PrefixCloses(on: set<nat>, target: set<nat>, plan: seq<Edge>, k: nat)
    requires GoodPlan(on, target, plan) && k <= |plan|
    ensures |Difference(Fold(on, plan[..k]), target)| == |Difference(on, target)| - k
    ensures forall i :: k <= i < |plan| ==> plan[i].note in Difference(Fold(on, plan[..k]), target)
  {
    if k == 0 {
      assert plan[..k] == [];
    } else {
      PrefixCloses(on, target, plan, k - 1);
      assert plan[..k][..k - 1] == plan[..k - 1];
      OneCloser(Fold(on, plan[..k - 1]), target, plan[k - 1]);
    }
  }

  lemma OneCloser(on: set<nat>, target: set<nat>, e: Edge)
    requires e.note in Difference(on, target) && (e.down <==> e.note in target)
    ensures Difference(Apply(on, e), target) == Difference(on, target) - {e.note}
    ensures |Difference(Apply(on, e), target)| == |Difference(on, target)| - 1
  {
    assert Difference(Apply(on, e), target) == Difference(on, target) - {e.note};
  }

  lemma PlanLength(on: set<nat>, target: set<nat>)
    requires InRange(on) && InRange(target)
    ensures |Plan(on, target)| == |Difference(on, target)|
  {
    var plan := Plan(on, target);
    PlanIsGood(on, target);
    PlanReaches(on, target);
    PrefixCloses(on, target, plan, |plan|);
    assert plan[..|plan|] == plan;
    assert Difference(target, target) == {};
  }

  // ---- One pass ---------------------------------------------------------------

  lemma {:induction false} DrainKeeps(o: Output, n: nat)
    ensures var o' := Drain(o, n);
            && o'.on == o.on && o'.emitted == o.emitted
            && o'.releaseCapacity == o.releaseCapacity && o'.onCapacity == o.onCapacity
            && |o'.releases| <= |o.releases| && |o'.ons| <= |o.ons|
    decreases n
  {
    if n > 0 {
      DrainKeeps(TryRecv(o), n - 1);
    }
  }

  /** A pass emits a prefix of its plan, stopping only where a queue is full. */
  lemma {:induction false} PushAllTakesPrefix(o: Output, plan: seq<Edge>, drains: nat -> nat, k: nat)
    ensures var o' := PushAll(o, plan, drains, k);
            var t := Taken(o, plan, drains, k);
            && t <= |plan|
            && o'.emitted == o.emitted + plan[..t]
            && o'.on == Fold(o.on, plan[..t])
            && (t < |plan| ==> !Fits(o', plan[t]))
    decreases |plan|
  {
    if plan != [] {
      var o1 := Drain(o, drains(k));
      DrainKeeps(o, drains(k));
      if Fits(o1, plan[0]) {
        var o2 := Push(o1, plan[0]);
        PushAllTakesPrefix(o2, plan[1..], drains, k + 1);
        var t := Taken(o2, plan[1..], drains, k + 1);
        assert plan[..1 + t] == [plan[0]] + plan[1..][..t];
        FoldCons(o.on, plan[0], plan[1..][..t]);
      }
    }
  }

  function Count(plan: seq<Edge>, down: bool): nat {
    if plan == [] then 0 else (if plan[0].down == down then 1 else 0) + Count(plan[1..], down)
  }

  lemma {:induction false} CountAppend(a: seq<Edge>, b: seq<Edge>, down: bool)
    ensures Count(a + b, down) == Count(a, down) + Count(b, down)
  {
    if a == [] {
      assert a + b == b;
    } else {
      assert (a + b)[1..] == a[1..] + b;
      CountAppend(a[1..], b, down);
    }
  }

  lemma {:induction false} CountAll(s: seq<Edge>, down: bool, b: bool)
    requires forall i :: 0 <= i < |s| ==> s[i].down == down
    ensures Count(s, b) == if b == down then |s| else 0
  {
    if s != [] {
      CountAll(s[1..], down, b);
    }
  }

  lemma CountPlan(on: set<nat>, target: set<nat>)
    ensures Count(Plan(on, target), false) == |Releases(on, target)|
    ensures Count(Plan(on, target), true) == |Additions(on, target)|
  {
    var r, a := Releases(on, target), Additions(on, target);
    ReleasesAre(on, target, LOWEST, 0);
    AdditionsAre(on, target, LOWEST, 0);
    CountAppend(r, a, false);
    CountAppend(r, a, true);
    CountAll(r, false, false);
    CountAll(r, false, true);
    CountAll(a, true, false);
    CountAll(a, true, true);
  }

  lemma {:induction false} EnoughCapacity(o: Output, plan: seq<Edge>, drains: nat -> nat, k: nat)
    requires |o.releases| + Count(plan, false) <= o.releaseCapacity
    requires |o.ons| + Count(plan, true) <= o.onCapacity
    ensures Taken(o, plan, drains, k) == |plan|
    decreases |plan|
  {
    if plan != [] {
      DrainKeeps(o, drains(k));
      EnoughCapacity(Push(Drain(o, drains(k)), plan[0]), plan[1..], drains, k + 1);
    }
  }

  /**
   One pass, for any target and however the audio callback interleaves: exactly the
   accepted edges are emitted, they are a prefix of releases-then-additions, the distance
   to the target shrinks by exactly their number, and an addition is emitted only when
   every release was accepted.
   */
  lemma PassShrinksDistance(o: Output, target: set<nat>, drains: nat -> nat)
    requires InRange(o.on) && InRange(target)
    ensures var o' := Pass(o, target, drains);
            var t := Accepted(o, target, drains);
            var plan := Plan(o.on, target);
            && t <= |plan| == |Difference(o.on, target)|
            && o'.emitted == o.emitted + plan[..t]
            && o'.on == Fold(o.on, plan[..t])
            && InRange(o'.on)
            && |Difference(o'.on, target)| == |Difference(o.on, target)| - t
            && (t < |plan| ==> !Fits(o', plan[t]))
            && ((exists i :: 0 <= i < t && plan[i].down) ==> t > |Releases(o.on, target)| && o'.on <= target)
  {
    var plan := Plan(o.on, target);
    var t := Accepted(o, target, drains);
    PushAllTakesPrefix(o, plan, drains, 0);
    PlanIsGood(o.on, target);
    PlanLength(o.on, target);
    PrefixCloses(o.on, target, plan, t);
    PrefixInRange(o.on, target, plan, t);
    if i :| 0 <= i < t && plan[i].down {
      PlanAt(o.on, target, i);
      ReleasedFirst(o.on, target, t);
    }
  }

  lemma {:induction false} PrefixInRange(on: set<nat>, target: set<nat>, plan: seq<Edge>, k: nat)
    requires InRange(on) && InRange(target) && GoodPlan(on, target, plan) && k <= |plan|
    ensures InRange(Fold(on, plan[..k]))
  {
    if k > 0 {
      PrefixInRange(on, target, plan, k - 1);
      assert plan[..k][..k - 1] == plan[..k - 1];
    }
  }

  lemma PlannedReleaseSilences(on: set<nat>, target: set<nat>, r: seq<Edge>, more: seq<Edge>, n: nat)
    requires GoodPlan(on, target, r + more) && n in on && n !in target && Mentions(r, n)
    ensures n !in Fold(on, r + more)
  {
    MentionsAppend(r, more, n);
    FoldLevel(on, r + more, n, false);
  }

  lemma GoodPrefix(on: set<nat>, target: set<nat>, plan: seq<Edge>, k: nat)
    requires GoodPlan(on, target, plan) && k <= |plan|
    ensures GoodPlan(on, target, plan[..k])
  {
  }

  lemma SilencedBy(on: set<nat>, target: set<nat>, r: seq<Edge>, more: seq<Edge>)
    requires GoodPlan(on, target, r + more)
    requires forall n :: n in on && n !in target ==> Mentions(r, n)
    ensures Fold(on, r + more) <= target
  {
    forall n | n !in target ensures n !in Fold(on, r + more) {
      if n in on {
        PlannedReleaseSilences(on, target, r, more, n);
      } else {
        FoldLevel(on, r + more, n, false);
      }
    }
  }

  /** After the planned releases nothing sounds that the target does not want. */
  lemma ReleasedFirst(on: set<nat>, target: set<nat>, k: nat)
    requires InRange(on) && |Releases(on, target)| <= k <= |Plan(on, target)|
    ensures Fold(on, Plan(on, target)[..k]) <= target
  {
    var plan, r := Plan(on, target), Releases(on, target);
    PlanIsGood(on, target);
    forall n | n in on && n !in target ensures Mentions(r, n) {
      ReleasesCover(on, target, n);
    }
    GoodPrefix(on, target, plan, k);
    assert plan[..k] == r + plan[|r|..k];
    SilencedBy(on, target, r, plan[|r|..k]);
  }

  lemma ReachesOnce(o: Output, target: set<nat>, drains: nat -> nat)
    requires InRange(o.on) && InRange(target)
    requires |o.releases| + |Releases(o.on, target)| <= o.releaseCapacity
    requires |o.ons| + |Additions(o.on, target)| <= o.onCapacity
    ensures Pass(o, target, drains).on == target
  {
    var plan := Plan(o.on, target);
    CountPlan(o.on, target);
    EnoughCapacity(o, plan, drains, 0);
    PushAllTakesPrefix(o, plan, drains, 0);
    assert plan[..|plan|] == plan;
    PlanReaches(o.on, target);
  }

  /** With room for the whole plan a pass reaches the target, and the next pass is silent. */
  lemma AmpleCapacityReaches(o: Output, target: set<nat>, drains: nat -> nat, again: nat -> nat)
    requires InRange(o.on) && InRange(target)
    requires |o.releases| + |Releases(o.on, target)| <= o.releaseCapacity
    requires |o.ons| + |Additions(o.on, target)| <= o.onCapacity
    ensures Pass(o, target, drains).on == target
    ensures Pass(Pass(o, target, drains), target, again) == Pass(o, target, drains)
  {
    ReachesOnce(o, target, drains);
    PlanLength(target, target);
    assert Difference(target, target) == {};
  }

  // ---- Every run: the emitted edges ---------------------------------------------

  /** Every edge changes the level its predecessors left: edges of one note alternate. */
  ghost predicate Alternating(on: set<nat>, edges: seq<Edge>) {
    forall i :: 0 <= i < |edges| ==> (edges[i].down <==> edges[i].note !in Fold(on, edges[..i]))
  }

  function Kind(edges: seq<Edge>, down: bool): seq<Edge> {
    if edges == [] then []
    else
      Kind(edges[..|edges| - 1], down)
      + (if edges[|edges| - 1].down == down then [edges[|edges| - 1]] else [])
  }

  ghost predicate QueueInv(o: Output) {
    && |o.releases| <= o.releaseCapacity && |o.ons| <= o.onCapacity
    && (forall i :: 0 <= i < |o.releases| ==> !o.releases[i].down)
    && (forall i :: 0 <= i < |o.ons| ==> o.ons[i].down)
    && Kind(o.emitted, false) == Kind(o.received, false) + o.releases
    && Kind(o.emitted, true) == Kind(o.received, true) + o.ons
  }

  ghost predicate EmitInv(o: Output) {
    && InRange(o.on)
    && Fold({}, o.emitted) == o.on
    && Alternating({}, o.emitted)
  }

  lemma KindAppend(edges: seq<Edge>, e: Edge, down: bool)
    ensures Kind(edges + [e], down) == Kind(edges, down) + if e.down == down then [e] else []
  {
    assert (edges + [e])[..|edges|] == edges;
  }

  /** Taking the head of one queue moves it from queued to received. */
  lemma HeadMoves(received: seq<Edge>, queue: seq<Edge>, down: bool)
    requires queue != [] && queue[0].down == down
    ensures Kind(received + [queue[0]], down) + queue[1..] == Kind(received, down) + queue
    ensures Kind(received + [queue[0]], !down) == Kind(received, !down)
  {
    KindAppend(received, queue[0], down);
    KindAppend(received, queue[0], !down);
    assert [queue[0]] + queue[1..] == queue;
    assert Kind(received, !down) + [] == Kind(received, !down);
  }

  lemma RecvKeepsQueues(o: Output)
    requires QueueInv(o)
    ensures QueueInv(TryRecv(o))
  {
    if o.releases != [] {
      HeadMoves(o.received, o.releases, false);
    } else if o.ons != [] {
      HeadMoves(o.received, o.ons, true);
    }
  }

  lemma {:induction false} DrainKeepsQueues(o: Output, n: nat)
    requires QueueInv(o)
    ensures QueueInv(Drain(o, n))
    decreases n
  {
    if n > 0 {
      RecvKeepsQueues(o);
      DrainKeepsQueues(TryRecv(o), n - 1);
    }
  }

  lemma PushKeepsQueues(o: Output, e: Edge)
    requires QueueInv(o) && Fits(o, e)
    ensures QueueInv(Push(o, e))
  {
    KindAppend(o.emitted, e, false);
    KindAppend(o.emitted, e, true);
  }

  lemma {:induction false} PushAllKeepsQueues(o: Output, plan: seq<Edge>, drains: nat -> nat, k: nat)
    requires QueueInv(o)
    ensures QueueInv(PushAll(o, plan, drains, k))
    decreases |plan|
  {
    if plan != [] {
      var o1 := Drain(o, drains(k));
      DrainKeepsQueues(o, drains(k));
      if Fits(o1, plan[0]) {
        PushKeepsQueues(o1, plan[0]);
        PushAllKeepsQueues(Push(o1, plan[0]), plan[1..], drains, k + 1);
      }
    }
  }

  lemma {:induction false} AppendAlternates(emitted: seq<Edge>, target: set<nat>, plan: seq<Edge>, k: nat)
    requires Alternating({}, emitted) && GoodPlan(Fold({}, emitted), target, plan) && k <= |plan|
    ensures Alternating({}, emitted + plan[..k])
  {
    if k == 0 {
      assert emitted + plan[..k] == emitted;
    } else {
      AppendAlternates(emitted, target, plan, k - 1);
      var all, less := emitted + plan[..k], emitted + plan[..k - 1];
      assert all == less + [plan[k - 1]];
      FoldAppend({}, emitted, plan[..k - 1]);
      PrefixCloses(Fold({}, emitted), target, plan, k - 1);
      forall i | 0 <= i < |all| ensures all[i].down <==> all[i].note !in Fold({}, all[..i]) {
        if i < |less| {
          assert all[..i] == less[..i];
        } else {
          assert all[..i] == less;
        }
      }
    }
  }

  lemma PassKeepsEmitted(o: Output, target: set<nat>, drains: nat -> nat)
    requires EmitInv(o) && InRange(target)
    ensures EmitInv(Pass(o, target, drains))
  {
    var plan := Plan(o.on, target);
    var t := Accepted(o, target, drains);
    PassShrinksDistance(o, target, drains);
    PlanIsGood(o.on, target);
    AppendAlternates(o.emitted, target, plan, t);
    FoldAppend({}, o.emitted, plan[..t]);
  }

  ghost predicate TargetsInRange(actions: seq<Action>) {
    forall i :: 0 <= i < |actions| && actions[i].DoPass? ==> InRange(actions[i].target)
  }

  /**
   Over every run of passes and receives, for any capacities: folding the accepted edges
   in emission order from all-off gives exactly the shadow, the edges of each note
   alternate, the queues stay within bounds, and no edge is lost or duplicated between
   emission and the audio callback.
   */
  lemma {:induction false} RunKeepsShadow(releaseCapacity: nat, onCapacity: nat, actions: seq<Action>)
    requires TargetsInRange(actions)
    ensures EmitInv(Run(Start(releaseCapacity, onCapacity), actions))
    ensures QueueInv(Run(Start(releaseCapacity, onCapacity), actions))
  {
    if actions != [] {
      var n := |actions| - 1;
      RunKeepsShadow(releaseCapacity, onCapacity, actions[..n]);
      var before := Run(Start(releaseCapacity, onCapacity), actions[..n]);
      match actions[n] {
        case DoPass(target, drains) =>
          PassKeepsEmitted(before, target, drains);
          PushAllKeepsQueues(before, Plan(before.on, target), drains, 0);
        case DoReceive => RecvKeepsQueues(before);
      }
    }
  }

  // ---- What the host hears ------------------------------------------------------

  /** What the host sounds once both queues are drained, releases first. */
  function Settled(o: Output): set<nat> {
    Fold(Fold(Fold({}, o.received), o.releases), o.ons)
  }

  lemma RecvKeepsSettled(o: Output)
    ensures Settled(TryRecv(o)) == Settled(o)
  {
    if o.releases != [] {
      assert o.releases == [o.releases[0]] + o.releases[1..];
      FoldAppend({}, o.received, [o.releases[0]]);
      FoldAppend(Fold({}, o.received), [o.releases[0]], o.releases[1..]);
    } else if o.ons != [] {
      assert o.ons == [o.ons[0]] + o.ons[1..];
      FoldAppend({}, o.received, [o.ons[0]]);
      FoldAppend(Fold({}, o.received), [o.ons[0]], o.ons[1..]);
      assert Fold(Fold({}, o.received), o.releases) == Fold({}, o.received);
    }
  }

  lemma {:induction false} DrainKeepsSettled(o: Output, n: nat)
    ensures Settled(Drain(o, n)) == Settled(o)
    decreases n
  {
    if n > 0 {
      RecvKeepsSettled(o);
      DrainKeepsSettled(TryRecv(o), n - 1);
    }
  }

  /** What the host sounds now. */
  function Heard(o: Output): set<nat> {
    Fold({}, o.received)
  }

  /** The callback receives as often as there are queued edges. */
  function Drained(o: Output): Output {
    Drain(o, |o.releases| + |o.ons|)
  }

  lemma {:induction false} DrainsEmpty(o: Output, n: nat)
    requires n == |o.releases| + |o.ons|
    ensures Drain(o, n).releases == [] && Drain(o, n).ons == []
    decreases n
  {
    if n > 0 {
      DrainsEmpty(TryRecv(o), n - 1);
    }
  }

  lemma DrainedIsSettled(o: Output)
    ensures Drained(o).releases == [] && Drained(o).ons == [] && Heard(Drained(o)) == Settled(o)
  {
    var n := |o.releases| + |o.ons|;
    DrainsEmpty(o, n);
    DrainKeepsSettled(o, n);
    EmptyIsHeard(Drained(o));
  }

  lemma EmptyIsHeard(o: Output)
    requires o.releases == [] && o.ons == []
    ensures Settled(o) == Heard(o)
  {
  }

  /** A release pushed behind a note-on of the same note still waiting in the other queue. */
  predicate Overtakes(ons: seq<Edge>, e: Edge) {
    !e.down && Edge(e.note, true) in ons
  }

  lemma {:induction false} FoldOns(on: set<nat>, ons: seq<Edge>, n: nat)
    requires forall i :: 0 <= i < |ons| ==> ons[i].down
    ensures n in Fold(on, ons) <==> n in on || Edge(n, true) in ons
  {
    if ons != [] {
      var k := |ons| - 1;
      assert ons == ons[..k] + [ons[k]];
      FoldOns(on, ons[..k], n);
    }
  }

  /** One push: the host ends up hearing the edge, unless the push overtakes. */
  lemma PushSettles(o: Output, e: Edge)
    requires QueueInv(o)
    ensures Settled(Push(o, e)) == if Overtakes(o.ons, e) then Settled(o) else Apply(Settled(o), e)
  {
    var heard := Fold({}, o.received);
    if e.down {
      FoldAppend(Fold(heard, o.releases), o.ons, [e]);
      FoldOne(Settled(o), e);
    } else {
      FoldAppend(heard, o.releases, [e]);
      FoldOne(Fold(heard, o.releases), e);
      var r := Fold(heard, o.releases);
      forall n: nat
        ensures n in Fold(r - {e.note}, o.ons)
                <==> n in Fold(r, o.ons) && (n != e.note || Edge(e.note, true) in o.ons)
      {
        FoldOns(r, o.ons, n);
        FoldOns(r - {e.note}, o.ons, n);
      }
    }
  }

  /** Whether some accepted release of a pass overtakes a queued note-on. */
  predicate PassOvertakes(o: Output, plan: seq<Edge>, drains: nat -> nat, k: nat)
    decreases |plan|
  {
    plan != [] &&
    var o1 := Drain(o, drains(k));
    Fits(o1, plan[0]) &&
    (Overtakes(o1.ons, plan[0]) || PassOvertakes(Push(o1, plan[0]), plan[1..], drains, k + 1))
  }

  ghost predicate Distinct(plan: seq<Edge>) {
    forall i, j :: 0 <= i < j < |plan| ==> plan[i].note != plan[j].note
  }

  /** A note the plan does not mention keeps its disagreement, or its agreement. */
  lemma {:induction false} UnmentionedKept(o: Output, plan: seq<Edge>, drains: nat -> nat, k: nat, n: nat)
    requires QueueInv(o) && !Mentions(plan, n)
    ensures n in PushAll(o, plan, drains, k).on <==> n in o.on
    ensures n in Settled(PushAll(o, plan, drains, k)) <==> n in Settled(o)
    decreases |plan|
  {
    if plan != [] {
      var o1 := Drain(o, drains(k));
      DrainKeepsQueues(o, drains(k));
      DrainKeepsSettled(o, drains(k));
      DrainKeeps(o, drains(k));
      if Fits(o1, plan[0]) {
        PushKeepsQueues(o1, plan[0]);
        PushSettles(o1, plan[0]);
        MentionsTail(plan, plan[1..], n);
        assert plan[0].note != n;
        UnmentionedKept(Push(o1, plan[0]), plan[1..], drains, k + 1, n);
      }
    }
  }

  lemma {:induction false} PushAllFaithfulIff(o: Output, plan: seq<Edge>, drains: nat -> nat, k: nat)
    requires QueueInv(o) && Distinct(plan) && Settled(o) == o.on
    ensures var o' := PushAll(o, plan, drains, k);
            Settled(o') == o'.on <==> !PassOvertakes(o, plan, drains, k)
    decreases |plan|
  {
    if plan != [] {
      var o1 := Drain(o, drains(k));
      DrainKeepsQueues(o, drains(k));
      DrainKeepsSettled(o, drains(k));
      DrainKeeps(o, drains(k));
      if Fits(o1, plan[0]) {
        var o2 := Push(o1, plan[0]);
        PushKeepsQueues(o1, plan[0]);
        PushSettles(o1, plan[0]);
        if Overtakes(o1.ons, plan[0]) {
          var n := plan[0].note;
          FoldOns(Fold(Fold({}, o1.received), o1.releases), o1.ons, n);
          assert n in Settled(o2) && n !in o2.on;
          assert !Mentions(plan[1..], n);
          UnmentionedKept(o2, plan[1..], drains, k + 1, n);
        } else {
          PushAllFaithfulIff(o2, plan[1..], drains, k + 1);
        }
      }
    }
  }

  /**
   If the drained host would hear exactly the shadow before a pass, it does so after the
   pass exactly when no accepted release was pushed while a note-on of its note was
   still queued.
   */
  lemma PassIsHeardIff(o: Output, target: set<nat>, drains: nat -> nat)
    requires QueueInv(o) && Settled(o) == o.on
    ensures var o' := Pass(o, target, drains);
            Settled(o') == o'.on <==> !PassOvertakes(o, Plan(o.on, target), drains, 0)
  {
    PlanIsGood(o.on, target);
    PushAllFaithfulIff(o, Plan(o.on, target), drains, 0);
  }

  // ---- What can be known before the pass --------------------------------------------

  /** Some release of the plan is for a note whose note-on is still queued, and there is a queue to put it in. */
  ghost predicate Risky(o: Output, target: set<nat>) {
    o.releaseCapacity > 0 && exists e :: e in Releases(o.on, target) && Edge(e.note, true) in o.ons
  }

  ghost predicate ReleasesFirst(plan: seq<Edge>) {
    forall i, j :: 0 <= i < j < |plan| && plan[i].down ==> plan[j].down
  }

  /** No release of the plan has its note-on queued. */
  ghost predicate Unqueued(plan: seq<Edge>, ons: seq<Edge>) {
    forall e :: e in plan && !e.down ==> Edge(e.note, true) !in ons
  }

  lemma {:induction false} DrainOnlyRemoves(o: Output, n: nat)
    ensures forall e :: e in Drain(o, n).ons ==> e in o.ons
    decreases n
  {
    if n > 0 {
      DrainOnlyRemoves(TryRecv(o), n - 1);
    }
  }

  /** Releases come first, so a pass can only overtake what was queued before it. */
  lemma {:induction false} UnqueuedNeverOvertakes(o: Output, plan: seq<Edge>, drains: nat -> nat, k: nat)
    requires ReleasesFirst(plan) && (o.releaseCapacity == 0 || Unqueued(plan, o.ons))
    ensures !PassOvertakes(o, plan, drains, k)
    decreases |plan|
  {
    if plan != [] {
      var o1 := Drain(o, drains(k));
      DrainKeeps(o, drains(k));
      DrainOnlyRemoves(o, drains(k));
      if Fits(o1, plan[0]) {
        var o2 := Push(o1, plan[0]);
        if plan[0].down {
          assert forall e :: e in plan[1..] ==> e.down;
        } else {
          assert forall e :: e in plan[1..] ==> e in plan;
        }
        UnqueuedNeverOvertakes(o2, plan[1..], drains, k + 1);
      }
    }
  }

  lemma PlanReleasesFirst(on: set<nat>, target: set<nat>)
    ensures ReleasesFirst(Plan(on, target))
    ensures forall e :: e in Plan(on, target) && !e.down ==> e in Releases(on, target)
    ensures forall e :: e in Releases(on, target) ==> !e.down
  {
    var plan := Plan(on, target);
    forall i, j | 0 <= i < j < |plan| && plan[i].down ensures plan[j].down {
      ReleasesPrecede(on, target, i, j);
    }
    ReleasesAre(on, target, LOWEST, 0);
    AdditionsAre(on, target, LOWEST, 0);
  }

  /** The callback takes one release before each push and leaves every note-on where it is. */
  function Greedy(waiting: nat): nat -> nat {
    (k: nat) => if k == 0 then waiting else 1
  }

  lemma {:induction false} DrainReleases(o: Output)
    ensures Drain(o, |o.releases|) == o.(releases := [], received := o.received + o.releases)
    decreases |o.releases|
  {
    if o.releases == [] {
      assert o.received + o.releases == o.received;
    } else {
      DrainReleases(TryRecv(o));
      assert o.received + [o.releases[0]] + o.releases[1..] == o.received + o.releases;
    }
  }

  /** Under that callback every release is accepted with all note-ons still queued, so a queued one is overtaken. */
  lemma {:induction false} GreedyOvertakes(o: Output, plan: seq<Edge>, waiting: nat, k: nat, i: nat)
    requires o.releaseCapacity > 0 && i < |plan| && (forall j :: 0 <= j <= i ==> !plan[j].down)
    requires Edge(plan[i].note, true) in o.ons
    requires |o.releases| == if k == 0 then waiting else 1
    ensures PassOvertakes(o, plan, Greedy(waiting), k)
    decreases i
  {
    DrainReleases(o);
    var o1 := Drain(o, Greedy(waiting)(k));
    assert o1.releases == [] && o1.ons == o.ons && Fits(o1, plan[0]);
    if i > 0 {
      var o2 := Push(o1, plan[0]);
      assert plan[1..][i - 1] == plan[i];
      GreedyOvertakes(o2, plan[1..], waiting, k + 1, i - 1);
    }
  }

  lemma RiskyCanOvertake(o: Output, target: set<nat>)
    requires Risky(o, target)
    ensures PassOvertakes(o, Plan(o.on, target), Greedy(|o.releases|), 0)
  {
    var r, a := Releases(o.on, target), Additions(o.on, target);
    var e :| e in r && Edge(e.note, true) in o.ons;
    ReleasesAre(o.on, target, LOWEST, 0);
    AtReleaseOvertakes(o, r, a, e);
  }

  lemma AtReleaseOvertakes(o: Output, r: seq<Edge>, a: seq<Edge>, e: Edge)
    requires o.releaseCapacity > 0 && e in r && Edge(e.note, true) in o.ons
    requires forall i :: 0 <= i < |r| ==> !r[i].down
    ensures PassOvertakes(o, r + a, Greedy(|o.releases|), 0)
  {
    var i :| 0 <= i < |r| && r[i] == e;
    GreedyOvertakes(o, r + a, |o.releases|, 0, i);
  }

  /**
   Known before the pass: a drained host in agreement with the shadow stays so however the
   callback interleaves exactly when no release to be made has its note-on still queued, or
   no release can be queued at all.
   */
  lemma PassIsSafeIff(o: Output, target: set<nat>)
    requires QueueInv(o) && Settled(o) == o.on
    ensures (forall drains: nat -> nat :: Settled(Pass(o, target, drains)) == Pass(o, target, drains).on) <==>
            !Risky(o, target)
  {
    if Risky(o, target) {
      RiskyCanOvertake(o, target);
      PassIsHeardIff(o, target, Greedy(|o.releases|));
    } else {
      forall drains: nat -> nat ensures Settled(Pass(o, target, drains)) == Pass(o, target, drains).on {
        SafePass(o, target, drains);
      }
    }
  }

  lemma SafePass(o: Output, target: set<nat>, drains: nat -> nat)
    requires QueueInv(o) && Settled(o) == o.on && !Risky(o, target)
    ensures Settled(Pass(o, target, drains)) == Pass(o, target, drains).on
  {
    PlanReleasesFirst(o.on, target);
    UnqueuedNeverOvertakes(o, Plan(o.on, target), drains, 0);
    PassIsHeardIff(o, target, drains);
  }

  /** The i-th action is not a pass that is risky when it begins. */
  ghost predicate SafeAt(o: Output, actions: seq<Action>, i: nat) {
    i < |actions| && (actions[i].DoPass? ==> !Risky(Run(o, actions[..i]), actions[i].target))
  }

  ghost predicate SafeRun(o: Output, actions: seq<Action>) {
    forall i :: 0 <= i < |actions| ==> SafeAt(o, actions, i)
  }

  lemma SafePrefix(o: Output, actions: seq<Action>, n: nat)
    requires SafeRun(o, actions) && n <= |actions|
    ensures SafeRun(o, actions[..n])
  {
    forall i | 0 <= i < n ensures SafeAt(o, actions[..n], i) {
      assert SafeAt(o, actions, i);
      assert actions[..n][..i] == actions[..i];
    }
  }

  function Do(o: Output, a: Action): Output {
    match a
    case DoPass(target, drains) => Pass(o, target, drains)
    case DoReceive => TryRecv(o)
  }

  lemma SafeStep(o: Output, a: Action)
    requires QueueInv(o) && Settled(o) == o.on && (a.DoPass? ==> !Risky(o, a.target))
    ensures Settled(Do(o, a)) == Do(o, a).on
  {
    match a
    case DoPass(target, drains) => SafePass(o, target, drains);
    case DoReceive => RecvKeepsSettled(o);
  }

  lemma {:induction false} SafeRunsSettle(o: Output, actions: seq<Action>)
    requires QueueInv(o) && Settled(o) == o.on && SafeRun(o, actions)
    ensures QueueInv(Run(o, actions)) && Settled(Run(o, actions)) == Run(o, actions).on
  {
    if actions != [] {
      var n := |actions| - 1;
      SafePrefix(o, actions, n);
      SafeRunsSettle(o, actions[..n]);
      assert SafeAt(o, actions, n);
      var before := Run(o, actions[..n]);
      SafeStep(before, actions[n]);
      DoKeepsQueues(before, actions[n]);
      assert Run(o, actions) == Do(before, actions[n]);
    }
  }

  lemma DoKeepsQueues(o: Output, a: Action)
    requires QueueInv(o)
    ensures QueueInv(Do(o, a))
  {
    match a
    case DoPass(target, drains) => PushAllKeepsQueues(o, Plan(o.on, target), drains, 0);
    case DoReceive => RecvKeepsQueues(o);
  }

  lemma StartIsSettled(releaseCapacity: nat, onCapacity: nat)
    ensures QueueInv(Start(releaseCapacity, onCapacity)) && Settled(Start(releaseCapacity, onCapacity)) == {}
  {
  }

  /**
   At every point of any run in which no pass was risky when it began, the host sounds
   exactly the shadow once it has drained its queues.
   */
  lemma SafeRunsAreHeard(releaseCapacity: nat, onCapacity: nat, actions: seq<Action>)
    requires SafeRun(Start(releaseCapacity, onCapacity), actions)
    ensures var o := Run(Start(releaseCapacity, onCapacity), actions);
            Heard(Drained(o)) == o.on
  {
    StartIsSettled(releaseCapacity, onCapacity);
    SafeRunsSettle(Start(releaseCapacity, onCapacity), actions);
    DrainedIsSettled(Run(Start(releaseCapacity, onCapacity), actions));
  }

  lemma ReleasesPrecede(on: set<nat>, target: set<nat>, i: nat, j: nat)
    requires i < j < |Plan(on, target)| && Plan(on, target)[i].down
    ensures Plan(on, target)[j].down
  {
    PlanAt(on, target, i);
    PlanAt(on, target, j);
  }

  lemma EmptyIsSafe(o: Output, target: set<nat>)
    requires o.ons == []
    ensures !Risky(o, target)
  {
  }

  /**
   From empty queues, a host in agreement and capacity for the plan, one pass and a
   releases-first drain bring the host to exactly the room's notes.
   */
  lemma HostReachesTheRoom(o: Output, target: set<nat>, drains: nat -> nat)
    requires InRange(o.on) && InRange(target)
    requires o.releases == [] && o.ons == [] && Heard(o) == o.on && QueueInv(o)
    requires |Releases(o.on, target)| <= o.releaseCapacity && |Additions(o.on, target)| <= o.onCapacity
    ensures var drained := Drained(Pass(o, target, drains));
            Heard(drained) == target && drained.on == target && drained.releases == [] && drained.ons == []
  {
    ReachesOnce(o, target, drains);
    EmptyIsHeard(o);
    EmptyIsSafe(o, target);
    SafePass(o, target, drains);
    SettledIsHeard(Pass(o, target, drains), target);
  }

  lemma SettledIsHeard(o: Output, target: set<nat>)
    requires Settled(o) == target && o.on == target
    ensures var drained := Drained(o);
            Heard(drained) == target && drained.on == target && drained.releases == [] && drained.ons == []
  {
    DrainedIsSettled(o);
    DrainKeeps(o, |o.releases| + |o.ons|);
  }

  /**
   Overtaking does strand a note. A host that is silent and in agreement, a note switched
   on by one pass and off by the next before the callback runs: the callback then hears
   off before on, so the host sounds a note the shadow has off, and no later pass for the
   same room ever corrects it.
   */
  lemma OvertakingStrandsANote(o: Output, note: nat, none: nat -> nat, later: nat -> nat)
    requires note < NOTES && none(0) == 0
    requires o.on == {} && o.releases == [] && o.ons == [] && Heard(o) == {}
    requires o.releaseCapacity > 0 && o.onCapacity > 0
    ensures var o2 := Pass(Pass(o, {note}, none), {}, none);
            var heard := TryRecv(TryRecv(o2));
            && heard.releases == [] && heard.ons == [] && heard.on == {}
            && Heard(heard) == {note}
            && Pass(heard, {}, later) == heard
  {
    var on, off := Edge(note, true), Edge(note, false);
    SwitchOne(o, {note}, none, on);
    var o1 := Push(o, on);
    SwitchOne(o1, {}, none, off);
    var o2 := Push(o1, off);
    var heard := TryRecv(TryRecv(o2));
    assert heard.received == o.received + [off] + [on];
    FoldAppend({}, o.received + [off], [on]);
    FoldAppend({}, o.received, [off]);
    FoldOne({}, off);
    FoldOne({}, on);
    NothingToDo(heard, later);
  }

  lemma NothingToDo(o: Output, drains: nat -> nat)
    requires o.on == {}
    ensures Pass(o, {}, drains) == o
  {
    PlanLength({}, {});
    assert Difference({}, {}) == {};
    assert Plan(o.on, {}) == [];
  }

  lemma PassOne(o: Output, target: set<nat>, drains: nat -> nat, e: Edge)
    requires Plan(o.on, target) == [e] && drains(0) == 0 && Fits(o, e)
    ensures Pass(o, target, drains) == Push(o, e)
  {
    assert Drain(o, drains(0)) == o;
    assert [e][1..] == [];
    assert PushAll(Push(o, e), [], drains, 1) == Push(o, e);
  }

  lemma SwitchOne(o: Output, target: set<nat>, drains: nat -> nat, e: Edge)
    requires InRange(o.on) && InRange(target) && Difference(o.on, target) == {e.note} && (e.down <==> e.note in target)
    requires drains(0) == 0 && Fits(o, e)
    ensures Pass(o, target, drains) == Push(o, e)
  {
    OnlyEdge(o.on, target, e);
    PassOne(o, target, drains, e);
  }

  /** A one-note difference plans one edge. */
  lemma OnlyEdge(on: set<nat>, target: set<nat>, e: Edge)
    requires InRange(on) && InRange(target) && Difference(on, target) == {e.note} && (e.down <==> e.note in target)
    ensures Plan(on, target) == [e]
  {
    PlanLength(on, target);
    PlanAt(on, target, 0);
  }
}
