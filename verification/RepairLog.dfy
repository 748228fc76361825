/**
 What an observer can read off the log of a board session: the placement that is
 keyed and the carrier it has, replayed note by note; which note can follow which;
 and what a Ready that was properly earned looks like.
 */
module RepairLog {
  import opened Prelude
  import opened BoardLeg

  /** A carrier attempt: open, finished locally by the terminal of a room attempt or not yet, or closed. */
  datatype Carrier =
    | Absent
    | Carrying(binding: Binding, finisher: Option<nat>)
    | Closed(binding: Binding, closer: nat)

  datatype Seen = Seen(keyed: Option<Binding>, carrier: Carrier)

  function See(v: Seen, n: Note): Seen {
    match n
    case Keyed(b) => Seen(Some(b), Absent)
    case SessionEnded => Seen(None, Absent)
    case CarrierOpened(b) => v.(carrier := Carrying(b, None))
    case CarrierFinished(b, a) => v.(carrier := Carrying(b, Some(a)))
    case WasClosed(b) =>
      v.(carrier := if v.carrier.Carrying? && v.carrier.finisher.Some? then Closed(b, v.carrier.finisher.value)
         else Absent)
    case BecameReady(_, _) => v.(carrier := Absent)
    case _ => v
  }

  function Replay(log: seq<Note>): Seen {
    if log == [] then Seen(None, Absent) else See(Replay(log[..|log| - 1]), log[|log| - 1])
  }

  /** Room attempt `a` was synchronized at `y`, when the carrier it had finished itself was the one closed last. */
  ghost predicate OwnClose(log: seq<Note>, b: Binding, a: nat, y: nat) {
    y < |log| && log[y] == RoomSynchronized(b, a) && Replay(log[..y]).carrier == Closed(b, a)
  }

  ghost predicate NoOpenAfter(log: seq<Note>, y: nat) {
    forall j :: y <= j < |log| ==> !log[j].CarrierOpened?
  }

  /** A synchronization over its own close is followed by no new carrier attempt. */
  ghost predicate Undisturbed(log: seq<Note>, b: Binding, a: nat) {
    forall y :: OwnClose(log, b, a, y) ==> NoOpenAfter(log, y)
  }

  ghost predicate FreshAttempt(log: seq<Note>, a: nat) {
    forall j :: 0 <= j < |log| && log[j].RoomStarted? ==> log[j].attempt != a
  }

  /** Which notes can come next, by what is keyed and carried. */
  predicate Fits(v: Seen, n: Note) {
    match n
    case Keyed(_) => v.keyed.None?
    case WasProvisioned(b) => v.keyed == Some(b)
    case CarrierOpened(b) => v.keyed == Some(b) && !v.carrier.Carrying?
    case CarrierFinished(b, _) => v.carrier == Carrying(b, None)
    case WasClosed(b) => v.carrier.Carrying? && v.carrier.binding == b && v.carrier.finisher.Some?
    case BecameReady(b, _) => v.keyed == Some(b) && v.carrier.Closed? && v.carrier.binding == b
    case _ => true
  }

  /** Which notes can come next, by what came before. */
  ghost predicate Follows(log: seq<Note>, n: Note) {
    match n
    case Keyed(_) => n !in log
    case CarrierFinished(b, a) => RoomStarted(b, a) in log
    case RoomStarted(b, a) => WasProvisioned(b) in log && FreshAttempt(log, a)
    case RoomSynchronized(b, a) => RoomStarted(b, a) in log && n !in log
    case BecameReady(b, a) => RoomSynchronized(b, a) in log && Undisturbed(log, b, a)
    case _ => true
  }

  ghost predicate Lawful(log: seq<Note>, n: Note) {
    Fits(Replay(log), n) && Follows(log, n)
  }

  ghost predicate LawfulAt(log: seq<Note>, i: nat) {
    i < |log| && Lawful(log[..i], log[i])
  }

  ghost predicate LogInv(log: seq<Note>) {
    forall i :: 0 <= i < |log| ==> LawfulAt(log, i)
  }

  lemma ReplayStep(log: seq<Note>, n: Note)
    ensures Replay(log + [n]) == See(Replay(log), n)
  {
    assert (log + [n])[..|log|] == log;
  }

  lemma LogGrows(log: seq<Note>, n: Note)
    requires LogInv(log) && Lawful(log, n)
    ensures LogInv(log + [n]) && Replay(log + [n]) == See(Replay(log), n)
  {
    ReplayStep(log, n);
    forall i | 0 <= i < |log + [n]| ensures LawfulAt(log + [n], i) {
      if i < |log| {
        assert LawfulAt(log, i);
        assert (log + [n])[..i] == log[..i];
      } else {
        assert (log + [n])[..i] == log;
      }
    }
  }

  lemma LogPrefix(log: seq<Note>, n: nat)
    requires LogInv(log) && n <= |log|
    ensures LogInv(log[..n])
  {
    forall i | 0 <= i < n ensures LawfulAt(log[..n], i) {
      assert LawfulAt(log, i);
      assert log[..n][..i] == log[..i];
    }
  }

  // ---- Reading the replay backwards --------------------------------------------

  predicate Breaks(n: Note) {
    n == SessionEnded || n.Keyed?
  }

  /** No note from `k` on ends the session or keys another one. */
  ghost predicate SameSession(log: seq<Note>, k: nat) {
    forall j :: k <= j < |log| ==> !Breaks(log[j])
  }

  /** Where a keyed placement and each state of its carrier come from. */
  lemma Origins(v: Seen, n: Note)
    requires Fits(v, n)
    ensures var v' := See(v, n);
            && (v'.keyed.Some? ==> n == Keyed(v'.keyed.value) || (v.keyed == v'.keyed && !Breaks(n)))
            && (v'.carrier.Carrying? && v'.carrier.finisher.Some? ==>
                  || n == CarrierFinished(v'.carrier.binding, v'.carrier.finisher.value)
                  || (v.carrier == v'.carrier && !Breaks(n) && !n.CarrierOpened?))
            && (v'.carrier.Closed? ==>
                  || (n == WasClosed(v'.carrier.binding)
                      && v.carrier == Carrying(v'.carrier.binding, Some(v'.carrier.closer)))
                  || (v.carrier == v'.carrier && !Breaks(n) && !n.CarrierOpened?))
  {
  }

  /** The last note of a lawful log, and what it was written over. */
  lemma LastNote(log: seq<Note>)
    requires LogInv(log) && log != []
    ensures var n := |log| - 1;
            LogInv(log[..n]) && Fits(Replay(log[..n]), log[n]) && Replay(log) == See(Replay(log[..n]), log[n])
  {
    LogPrefix(log, |log| - 1);
    assert LawfulAt(log, |log| - 1);
  }

  ghost predicate KeyedAt(log: seq<Note>, b: Binding, k: nat) {
    k < |log| && log[k] == Keyed(b) && SameSession(log, k + 1)
  }

  lemma {:induction false} KeyedMeans(log: seq<Note>) returns (k: nat)
    requires LogInv(log) && Replay(log).keyed.Some?
    ensures KeyedAt(log, Replay(log).keyed.value, k)
  {
    var n := |log| - 1;
    LastNote(log);
    Origins(Replay(log[..n]), log[n]);
    if log[n] == Keyed(Replay(log).keyed.value) {
      k := n;
    } else {
      k := KeyedMeans(log[..n]);
    }
  }

  ghost predicate FinishedAt(log: seq<Note>, b: Binding, a: nat, f: nat) {
    f < |log| && log[f] == CarrierFinished(b, a) && SameSession(log, f + 1) && NoOpenAfter(log, f + 1)
  }

  lemma FinishedStill(log: seq<Note>, b: Binding, a: nat, f: nat)
    requires log != [] && FinishedAt(log[..|log| - 1], b, a, f)
    requires !Breaks(log[|log| - 1]) && !log[|log| - 1].CarrierOpened?
    ensures FinishedAt(log, b, a, f)
  {
    var n := |log| - 1;
    assert forall j :: 0 <= j < n ==> log[..n][j] == log[j];
  }

  lemma {:induction false} CarryingMeans(log: seq<Note>) returns (f: nat)
    requires LogInv(log) && Replay(log).carrier.Carrying? && Replay(log).carrier.finisher.Some?
    ensures FinishedAt(log, Replay(log).carrier.binding, Replay(log).carrier.finisher.value, f)
  {
    var n := |log| - 1;
    var c := Replay(log).carrier;
    LastNote(log);
    Origins(Replay(log[..n]), log[n]);
    if log[n] == CarrierFinished(c.binding, c.finisher.value) {
      f := n;
    } else {
      f := CarryingMeans(log[..n]);
      FinishedStill(log, c.binding, c.finisher.value, f);
    }
  }

  /** A closed carrier was finished at f and closed at d, with nothing opened and no session change since f. */
  lemma {:induction false} ClosedMeans(log: seq<Note>) returns (f: nat, d: nat)
    requires LogInv(log) && Replay(log).carrier.Closed?
    ensures FinishedAt(log, Replay(log).carrier.binding, Replay(log).carrier.closer, f)
    ensures f < d < |log| && log[d] == WasClosed(Replay(log).carrier.binding)
  {
    var n := |log| - 1;
    var c := Replay(log).carrier;
    LastNote(log);
    Origins(Replay(log[..n]), log[n]);
    if Replay(log[..n]).carrier == c {
      f, d := ClosedMeans(log[..n]);
    } else {
      f := CarryingMeans(log[..n]);
      d := n;
    }
    FinishedStill(log, c.binding, c.closer, f);
  }

  // ---- A Ready that was earned -----------------------------------------------------

  /** The steps of one repair, from keying to synchronization. */
  datatype Route = Route(keyed: nat, provisioned: nat, started: nat, finished: nat, closed: nat, synchronized: nat)

  /**
   Ready at `i` was earned by room attempt `a` alone: its placement was keyed and stayed
   in session; it was provisioned; the room started `a` for it; the terminal of `a`
   finished the carrier; that carrier closed; the room, told of the close, synchronized
   `a`; and from the finish on no carrier attempt was opened.
   */
  ghost predicate EarnedBy(log: seq<Note>, i: nat, r: Route) {
    && i < |log| && log[i].BecameReady?
    && r.keyed < r.provisioned < r.started < r.finished < r.closed < r.synchronized < i
    && log[r.keyed] == Keyed(log[i].binding)
    && log[r.provisioned] == WasProvisioned(log[i].binding)
    && log[r.started] == RoomStarted(log[i].binding, log[i].attempt)
    && log[r.finished] == CarrierFinished(log[i].binding, log[i].attempt)
    && log[r.closed] == WasClosed(log[i].binding)
    && log[r.synchronized] == RoomSynchronized(log[i].binding, log[i].attempt)
    && SameSession(log[..i], r.keyed + 1)
    && NoOpenAfter(log[..i], r.finished + 1)
  }

  /** Anything provisioned for a keyed placement was provisioned after its keying. */
  lemma ProvisionedAfterKeying(log: seq<Note>, b: Binding, k: nat, p: nat)
    requires LogInv(log) && KeyedAt(log, b, k) && p < |log| && log[p] == WasProvisioned(b)
    ensures k < p
  {
    assert LawfulAt(log, p);
    LogPrefix(log, p);
    var k' := KeyedMeans(log[..p]);
    Unique(log, k, k');
  }

  lemma NeverTwice(log: seq<Note>, i: nat, j: nat)
    requires LogInv(log) && i < j < |log| && (log[j].Keyed? || log[j].RoomSynchronized?)
    ensures log[i] != log[j]
  {
    assert LawfulAt(log, j);
    assert log[..j][i] == log[i];
  }

  lemma Unique(log: seq<Note>, i: nat, j: nat)
    requires LogInv(log) && i < |log| && j < |log| && log[i] == log[j] && (log[j].Keyed? || log[j].RoomSynchronized?)
    ensures i == j
  {
    if i < j {
      NeverTwice(log, i, j);
    } else if j < i {
      NeverTwice(log, j, i);
    }
  }

  /** A synchronization over the attempt's own close makes the Ready that answers it an earned one. */
  lemma OwnCloseEarns(log: seq<Note>, i: nat, y: nat) returns (r: Route)
    requires LogInv(log) && i < |log| && log[i].BecameReady?
    requires OwnClose(log[..i], log[i].binding, log[i].attempt, y)
    ensures EarnedBy(log, i, r) && r.synchronized == y
  {
    var b, a := log[i].binding, log[i].attempt;
    assert LawfulAt(log, i);
    LogPrefix(log, i);
    LogPrefix(log, y);
    assert log[..i][..y] == log[..y];
    var k := KeyedMeans(log[..i]);
    var f, d := ClosedMeans(log[..y]);
    assert LawfulAt(log, f);
    var s :| 0 <= s < f && log[..f][s] == RoomStarted(b, a);
    assert LawfulAt(log, s);
    var p :| 0 <= p < s && log[..s][p] == WasProvisioned(b);
    ProvisionedAfterKeying(log[..i], b, k, p);
    r := Route(k, p, s, f, d, y);
    assert NoOpenAfter(log[..i], f + 1) by {
      forall j | f + 1 <= j < i ensures !log[..i][j].CarrierOpened? {
        if j < y {
          assert log[..y][j] == log[j];
        }
      }
    }
  }

  /** The carrier around the notes of an earned repair, where none opens and none breaks the session. */
  lemma QuietStep(v: Seen, n: Note, b: Binding, a: nat)
    requires Fits(v, n) && !Breaks(n) && !n.CarrierOpened?
    ensures var c := See(v, n).carrier;
            && (v.carrier == Carrying(b, Some(a)) ==> c == if n.WasClosed? then Closed(b, a) else v.carrier)
            && (v.carrier == Closed(b, a) ==> c == Closed(b, a) || c == Absent)
            && (v.carrier == Absent ==> c == Absent)
  {
  }

  lemma PrefixStep(log: seq<Note>, n: nat)
    requires LogInv(log) && n < |log|
    ensures Fits(Replay(log[..n]), log[n]) && Replay(log[..n + 1]) == See(Replay(log[..n]), log[n])
  {
    assert log[..n + 1] == log[..n] + [log[n]];
    ReplayStep(log[..n], log[n]);
    assert LawfulAt(log, n);
  }

  lemma QuietNote(log: seq<Note>, i: nat, r: Route, n: nat)
    requires EarnedBy(log, i, r) && r.finished < n < i
    ensures !Breaks(log[n]) && !log[n].CarrierOpened?
  {
    assert log[..i][n] == log[n];
  }

  /** Before its close an earned repair's carrier is the finished one; after it, closed or gone. */
  lemma {:induction false} EarnedCarrier(log: seq<Note>, i: nat, r: Route, n: nat)
    requires LogInv(log) && EarnedBy(log, i, r) && r.finished < n <= i
    ensures var c := Replay(log[..n]).carrier;
            var b, a := log[i].binding, log[i].attempt;
            && (c == Carrying(b, Some(a)) || c == Closed(b, a) || c == Absent)
            && (r.closed < n ==> !c.Carrying?)
  {
    PrefixStep(log, n - 1);
    if n - 1 > r.finished {
      EarnedCarrier(log, i, r, n - 1);
      QuietNote(log, i, r, n - 1);
      QuietStep(Replay(log[..n - 1]), log[n - 1], log[i].binding, log[i].attempt);
    }
  }

  lemma {:induction false} AbsentStays(log: seq<Note>, i: nat, r: Route, n: nat, m: nat)
    requires LogInv(log) && EarnedBy(log, i, r) && r.finished < n <= m <= i && Replay(log[..n]).carrier == Absent
    ensures Replay(log[..m]).carrier == Absent
  {
    if n < m {
      AbsentStays(log, i, r, n, m - 1);
      PrefixStep(log, m - 1);
      QuietNote(log, i, r, m - 1);
      QuietStep(Replay(log[..m - 1]), log[m - 1], log[i].binding, log[i].attempt);
    }
  }

  /** Conversely, an earned Ready was synchronized over the attempt's own close. */
  lemma EarnedHasOwnClose(log: seq<Note>, i: nat, r: Route)
    requires LogInv(log) && EarnedBy(log, i, r)
    ensures Replay(log[..r.synchronized]).carrier == Closed(log[i].binding, log[i].attempt)
  {
    EarnedCarrier(log, i, r, r.synchronized);
    PrefixStep(log, i);
    if Replay(log[..r.synchronized]).carrier == Absent {
      AbsentStays(log, i, r, r.synchronized, i);
    }
  }

  /** The room attempt a Ready answers was synchronized exactly once before it. */
  lemma ReadyAnswers(log: seq<Note>, i: nat) returns (y: nat)
    requires LogInv(log) && i < |log| && log[i].BecameReady?
    ensures y < i && log[y] == RoomSynchronized(log[i].binding, log[i].attempt)
  {
    assert LawfulAt(log, i);
    y :| 0 <= y < i && log[..i][y] == RoomSynchronized(log[i].binding, log[i].attempt);
  }

  ghost predicate Earned(log: seq<Note>, i: nat) {
    exists r :: EarnedBy(log, i, r)
  }

  /** A Ready is earned exactly when its attempt was synchronized over its own close. */
  lemma EarnedIff(log: seq<Note>, i: nat, y: nat)
    requires LogInv(log) && i < |log| && log[i].BecameReady?
    requires y < i && log[y] == RoomSynchronized(log[i].binding, log[i].attempt)
    ensures Earned(log, i) <==> Replay(log[..y]).carrier == Closed(log[i].binding, log[i].attempt)
  {
    assert log[..i][..y] == log[..y];
    if Replay(log[..y]).carrier == Closed(log[i].binding, log[i].attempt) {
      var r := OwnCloseEarns(log, i, y);
    }
    if Earned(log, i) {
      var r :| EarnedBy(log, i, r);
      EarnedHasOwnClose(log, i, r);
      Unique(log, y, r.synchronized);
    }
  }
}
