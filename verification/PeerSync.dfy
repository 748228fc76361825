/** Which replica lanes a peer must synchronise and has synchronised, as two bit fields. */
module PeerSync {
  datatype Lane = Music | Extension
  datatype PeerPath = Connecting | Direct | Relayed | Disconnected

  function Tag(lane: Lane): bv8 {
    match lane
    case Music => 1
    case Extension => 2
  }

  const WALKIE: bv8 := 3

  /** A support value names at least one lane and nothing else. */
  predicate IsSupport(bits: bv8) {
    bits != 0 && bits & !WALKIE == 0
  }

  predicate Has(bits: bv8, lane: Lane) {
    bits & Tag(lane) != 0
  }

  /** A support value is valid exactly if it is what some of the lanes, at least one, add up to. */
  lemma SupportNamesLanes(bits: bv8)
    ensures IsSupport(bits)
            <==> bits == Tag(Music) || bits == Tag(Extension) || bits == (Tag(Music) | Tag(Extension))
    ensures Has(bits, Music) || Has(bits, Extension) || !IsSupport(bits)
  {
  }

  datatype Sync = Sync(required: bv8, complete: bv8)

  function UpdateRequirements(s: Sync, support: bv8, path: PeerPath): Sync {
    Sync(support, if path == Disconnected then 0 else s.complete & support)
  }

  function MarkLane(s: Sync, lane: Lane, done: bool): Sync {
    s.(complete := if done then s.complete | Tag(lane) else s.complete & !Tag(lane))
  }

  predicate Synchronized(s: Sync) {
    s.required != 0 && s.complete & s.required == s.required
  }

  // ---- Meaning ----------------------------------------------------------------

  datatype Change = Require(support: bv8, path: PeerPath) | Mark(lane: Lane, done: bool)

  function Change1(s: Sync, c: Change): Sync {
    match c
    case Require(support, path) => UpdateRequirements(s, support, path)
    case Mark(lane, done) => MarkLane(s, lane, done)
  }

  function Replay(start: Sync, changes: seq<Change>): Sync {
    if changes == [] then start else Change1(Replay(start, changes[..|changes| - 1]), changes[|changes| - 1])
  }

  /** Read from the end of the history: the last thing that settled this lane said done. */
  predicate LaneDone(changes: seq<Change>, lane: Lane) {
    changes != [] &&
    var last := changes[|changes| - 1];
    match last
    case Mark(l, done) => if l == lane then done else LaneDone(changes[..|changes| - 1], lane)
    case Require(support, path) =>
      path != Disconnected && Has(support, lane) && LaneDone(changes[..|changes| - 1], lane)
  }

  function LastSupport(start: bv8, changes: seq<Change>): bv8 {
    if changes == [] then start
    else if changes[|changes| - 1].Require? then changes[|changes| - 1].support
    else LastSupport(start, changes[..|changes| - 1])
  }

  ghost predicate SupportsAreValid(changes: seq<Change>) {
    forall i :: 0 <= i < |changes| && changes[i].Require? ==> IsSupport(changes[i].support)
  }

  lemma MarkReads(s: Sync, lane: Lane, done: bool, other: Lane)
    ensures Has(MarkLane(s, lane, done).complete, other) <==> if lane == other then done else Has(s.complete, other)
  {
  }

  lemma RequireReads(s: Sync, support: bv8, path: PeerPath, lane: Lane)
    ensures Has(UpdateRequirements(s, support, path).complete, lane)
            <==> path != Disconnected && Has(support, lane) && Has(s.complete, lane)
  {
  }

  /** The bit test is subset inclusion of lanes. */
  lemma SynchronizedIffAllLanes(s: Sync)
    requires s.required & !WALKIE == 0
    ensures Synchronized(s) <==> s.required != 0 && forall lane :: Has(s.required, lane) ==> Has(s.complete, lane)
  {
    if s.required != 0 && forall lane :: Has(s.required, lane) ==> Has(s.complete, lane) {
      assert Has(s.required, Music) ==> Has(s.complete, Music);
      assert Has(s.required, Extension) ==> Has(s.complete, Extension);
    }
  }

  lemma {:induction false} ReplayReads(required: bv8, changes: seq<Change>, lane: Lane)
    ensures Has(Replay(Sync(required, 0), changes).complete, lane) <==> LaneDone(changes, lane)
    ensures Replay(Sync(required, 0), changes).required == LastSupport(required, changes)
  {
    if changes != [] {
      var n := |changes| - 1;
      ReplayReads(required, changes[..n], lane);
      var before := Replay(Sync(required, 0), changes[..n]);
      match changes[n] {
        case Mark(l, done) => MarkReads(before, l, done, lane);
        case Require(support, path) => RequireReads(before, support, path, lane);
      }
    }
  }

  lemma {:induction false} LastSupportIsValid(required: bv8, changes: seq<Change>)
    requires required & !WALKIE == 0 && SupportsAreValid(changes)
    ensures LastSupport(required, changes) & !WALKIE == 0
  {
    if changes != [] {
      LastSupportIsValid(required, changes[..|changes| - 1]);
    }
  }

  /**
   However requirement updates and lane results arrive, the flag is up exactly when some
   lane is required and, for every required lane, the last event that settled it was a
   success with no disconnect and no withdrawal of the lane since.
   */
  lemma SynchronizedMeansEveryLane(required: bv8, changes: seq<Change>)
    requires required & !WALKIE == 0 && SupportsAreValid(changes)
    ensures var support := LastSupport(required, changes);
            Synchronized(Replay(Sync(required, 0), changes))
            <==> support != 0 && forall lane :: Has(support, lane) ==> LaneDone(changes, lane)
  {
    LastSupportIsValid(required, changes);
    ReplayReads(required, changes, Music);
    ReplayReads(required, changes, Extension);
    SynchronizedIffAllLanes(Replay(Sync(required, 0), changes));
  }
}
