/**
 Peer discovery over one fan-out channel: every hello goes to every subscriber, and a
 peer replies only to ids it had not seen.
 */
module Discovery {
  import opened Prelude

  const MAX_PEERS: nat := 64

  type Id = nat

  /** What hearing a hello does to a peer: its joined set, and whether it announces and replies. */
  function Hear(joined: set<Id>, our: Id, id: Id): (set<Id>, bool) {
    if id == our || id in joined || |joined| >= MAX_PEERS then (joined, false) else (joined + {id}, true)
  }

  /** One announcement: `who` discovered `whom` and replied. */
  datatype Announcement = Announcement(who: Id, whom: Id)

  /**
   Peers 0..n-1. `inbox[p]` are hellos fanned out to p's socket and not yet read;
   `joined` outlives reconnects.
   */
  datatype Network = Network(connected: seq<bool>, inbox: seq<seq<Id>>, joined: seq<set<Id>>, log: seq<Announcement>)

  function Fresh(n: nat): Network {
    Network(seq(n, _ => false), seq(n, _ => []), seq(n, _ => {}), [])
  }

  ghost predicate Shape(net: Network, n: nat) {
    |net.connected| == n && |net.inbox| == n && |net.joined| == n
  }

  /** The server sends a hello to every subscriber, the sender included. */
  function FanOut(net: Network, from: Id): Network
    requires |net.inbox| == |net.connected|
  {
    net.(inbox := seq(|net.inbox|, i requires 0 <= i < |net.inbox| =>
                      if net.connected[i] then net.inbox[i] + [from] else net.inbox[i]))
  }

  /** `ok` says whether the reply got out; a failed reply is only logged. */
  datatype Action =
    | Connect(p: Id)
    | Disconnect(p: Id)
    | ReHello(p: Id)
    | Deliver(p: Id, ok: bool)

  function Take(net: Network, p: Id): Network
    requires p < |net.inbox| && net.inbox[p] != []
  {
    net.(inbox := net.inbox[p := net.inbox[p][1..]])
  }

  function DoDeliver(net: Network, p: Id, ok: bool): Network
    requires Shape(net, |net.joined|) && p < |net.joined| && net.inbox[p] != []
  {
    var id := net.inbox[p][0];
    var (joined, first) := Hear(net.joined[p], p, id);
    var net1 := Take(net, p);
    if !first then net1
    else
      var net2 := net1.(joined := net.joined[p := joined], log := net.log + [Announcement(p, id)]);
      if ok then FanOut(net2, p) else net2
  }

  function Step(net: Network, a: Action): Network
    requires Shape(net, |net.joined|)
  {
    if a.p >= |net.joined| then net
    else
      match a
      case Connect(p) =>
        if net.connected[p] then net
        else FanOut(net.(connected := net.connected[p := true], inbox := net.inbox[p := []]), p)
      case Disconnect(p) => net.(connected := net.connected[p := false], inbox := net.inbox[p := []])
      case ReHello(p) => if net.connected[p] then FanOut(net, p) else net
      case Deliver(p, ok) => if net.connected[p] && net.inbox[p] != [] then DoDeliver(net, p, ok) else net
  }

  lemma StepShape(net: Network, a: Action)
    requires Shape(net, |net.joined|)
    ensures Shape(Step(net, a), |net.joined|)
  {
  }

  ghost function Run(net: Network, actions: seq<Action>): (r: Network)
    requires Shape(net, |net.joined|)
    ensures Shape(r, |net.joined|)
  {
    if actions == [] then net
    else
      var before := Run(net, actions[..|actions| - 1]);
      StepShape(before, actions[|actions| - 1]);
      Step(before, actions[|actions| - 1])
  }

  // ---- Every id is announced at most once ---------------------------------------

  ghost predicate KnownIds(net: Network, n: nat)
    requires Shape(net, n)
  {
    && (forall p, i :: 0 <= p < n && 0 <= i < |net.inbox[p]| ==> net.inbox[p][i] < n)
    && (forall p, q :: 0 <= p < n && q in net.joined[p] ==> q < n && q != p)
    && (forall p :: 0 <= p < n ==> |net.joined[p]| <= MAX_PEERS)
  }

  ghost predicate LogInv(net: Network, n: nat)
    requires Shape(net, n)
  {
    && (forall i :: 0 <= i < |net.log| ==> net.log[i].who < n && net.log[i].whom in net.joined[net.log[i].who])
    && (forall i, j :: 0 <= i < j < |net.log| ==> net.log[i] != net.log[j])
    && |net.log| == Total(net.joined)
  }

  ghost predicate NetInv(net: Network, n: nat) {
    Shape(net, n) && KnownIds(net, n) && LogInv(net, n)
  }

  /** How many joins there have been, over all peers. */
  function Total(joined: seq<set<Id>>): nat {
    if joined == [] then 0 else Total(joined[..|joined| - 1]) + |joined[|joined| - 1]|
  }

  lemma {:induction false} TotalUpdate(joined: seq<set<Id>>, p: nat, s: set<Id>)
    requires p < |joined|
    ensures Total(joined[p := s]) == Total(joined) - |joined[p]| + |s|
  {
    var n := |joined| - 1;
    if p == n {
      assert joined[p := s][..n] == joined[..n];
    } else {
      assert joined[p := s][..n] == joined[..n][p := s];
      TotalUpdate(joined[..n], p, s);
    }
  }

  lemma {:induction false} TotalBound(joined: seq<set<Id>>, bound: nat)
    requires forall p :: 0 <= p < |joined| ==> |joined[p]| <= bound
    ensures Total(joined) <= |joined| * bound
  {
    if joined != [] {
      TotalBound(joined[..|joined| - 1], bound);
      assert |joined| * bound == (|joined| - 1) * bound + bound;
    }
  }

  lemma FanOutKeeps(net: Network, n: nat, from: Id)
    requires NetInv(net, n) && from < n
    ensures NetInv(FanOut(net, from), n)
  {
    var net' := FanOut(net, from);
    forall p, i | 0 <= p < n && 0 <= i < |net'.inbox[p]| ensures net'.inbox[p][i] < n {
      if i < |net.inbox[p]| {
        assert net.inbox[p][i] < n;
      }
    }
  }

  lemma JoinKeeps(net: Network, n: nat, p: Id, id: Id)
    requires NetInv(net, n) && p < n && id < n && id != p && id !in net.joined[p] && |net.joined[p]| < MAX_PEERS
    ensures NetInv(net.(joined := net.joined[p := net.joined[p] + {id}], log := net.log + [Announcement(p, id)]), n)
  {
    TotalUpdate(net.joined, p, net.joined[p] + {id});
    var net' := net.(joined := net.joined[p := net.joined[p] + {id}], log := net.log + [Announcement(p, id)]);
    forall i | 0 <= i < |net.log| ensures net.log[i] != Announcement(p, id) {
      assert net.log[i].whom in net.joined[net.log[i].who];
    }
    assert KnownIds(net', n);
  }

  lemma TakeKeeps(net: Network, n: nat, p: Id)
    requires NetInv(net, n) && p < n && net.inbox[p] != []
    ensures NetInv(Take(net, p), n)
  {
    var net' := Take(net, p);
    forall q, i | 0 <= q < n && 0 <= i < |net'.inbox[q]| ensures net'.inbox[q][i] < n {
      if q == p {
        assert net'.inbox[q][i] == net.inbox[q][i + 1];
      }
    }
  }

  lemma StepKeeps(net: Network, n: nat, a: Action)
    requires NetInv(net, n)
    ensures NetInv(Step(net, a), n)
  {
    if a.p < n {
      match a {
        case Connect(p) =>
          if !net.connected[p] {
            FanOutKeeps(net.(connected := net.connected[p := true], inbox := net.inbox[p := []]), n, p);
          }
        case Disconnect(p) =>
        case ReHello(p) =>
          if net.connected[p] {
            FanOutKeeps(net, n, p);
          }
        case Deliver(p, ok) =>
          if net.connected[p] && net.inbox[p] != [] {
            DeliverKeeps(net, n, p, ok);
          }
      }
    }
  }

  lemma DeliverKeeps(net: Network, n: nat, p: Id, ok: bool)
    requires NetInv(net, n) && p < n && net.inbox[p] != []
    ensures NetInv(DoDeliver(net, p, ok), n)
  {
    TakeKeeps(net, n, p);
    var net1 := Take(net, p);
    var id := net.inbox[p][0];
    var (joined, first) := Hear(net.joined[p], p, id);
    if first {
      JoinKeeps(net1, n, p, id);
      var net2 := net1.(joined := net.joined[p := joined], log := net.log + [Announcement(p, id)]);
      if ok {
        FanOutKeeps(net2, n, p);
      }
    }
  }

  lemma FreshInv(n: nat)
    ensures NetInv(Fresh(n), n)
  {
    TotalBound(Fresh(n).joined, 0);
  }

  lemma {:induction false} RunKeeps(net: Network, n: nat, actions: seq<Action>)
    requires NetInv(net, n)
    ensures NetInv(Run(net, actions), n)
  {
    if actions != [] {
      RunKeeps(net, n, actions[..|actions| - 1]);
      StepKeeps(Run(net, actions[..|actions| - 1]), n, actions[|actions| - 1]);
    }
  }

  lemma {:induction false} SmallSet(s: set<Id>, n: nat)
    requires forall q :: q in s ==> q < n
    ensures |s| <= n
  {
    if n > 0 {
      SmallSet(s - {n - 1}, n - 1);
    } else {
      assert s == {};
    }
  }

  /** A peer joins only others: at most n - 1 of them, and never more than the cap. */
  lemma JoinedBound(net: Network, n: nat, p: Id)
    requires NetInv(net, n) && p < n
    ensures |net.joined[p]| <= if n - 1 < MAX_PEERS then n - 1 else MAX_PEERS
  {
    SmallSet(net.joined[p] + {p}, n);
    assert p !in net.joined[p];
  }

  /**
   However n peers connect, drop, reconnect, re-announce and read their sockets: no peer
   announces another id twice, each announced id is in the announcer's joined set, and
   reply hellos total at most n * min(n - 1, 64).
   */
  lemma RepliesAreBounded(n: nat, actions: seq<Action>)
    ensures var net := Run(Fresh(n), actions);
            && (forall i, j :: 0 <= i < j < |net.log| ==> net.log[i] != net.log[j])
            && |net.log| <= n * (if n == 0 then 0 else if n - 1 < MAX_PEERS then n - 1 else MAX_PEERS)
  {
    FreshInv(n);
    RunKeeps(Fresh(n), n, actions);
    var net := Run(Fresh(n), actions);
    if n > 0 {
      var bound := if n - 1 < MAX_PEERS then n - 1 else MAX_PEERS;
      forall p | 0 <= p < n ensures |net.joined[p]| <= bound {
        JoinedBound(net, n, p);
      }
      TotalBound(net.joined, bound);
    }
  }

  // ---- Quiescence ---------------------------------------------------------------

  function Unread(inbox: seq<seq<Id>>): nat {
    if inbox == [] then 0 else Unread(inbox[..|inbox| - 1]) + |inbox[|inbox| - 1]|
  }

  lemma {:induction false} UnreadUpdate(inbox: seq<seq<Id>>, p: nat, s: seq<Id>)
    requires p < |inbox|
    ensures Unread(inbox[p := s]) == Unread(inbox) - |inbox[p]| + |s|
  {
    var n := |inbox| - 1;
    if p == n {
      assert inbox[p := s][..n] == inbox[..n];
    } else {
      assert inbox[p := s][..n] == inbox[..n][p := s];
      UnreadUpdate(inbox[..n], p, s);
    }
  }

  lemma {:induction false} UnreadGrowth(a: seq<seq<Id>>, b: seq<seq<Id>>)
    requires |a| == |b| && forall i :: 0 <= i < |a| ==> |b[i]| <= |a[i]| + 1
    ensures Unread(b) <= Unread(a) + |a|
  {
    if a != [] {
      UnreadGrowth(a[..|a| - 1], b[..|b| - 1]);
    }
  }

  /** Unread hellos plus n for every join still possible. */
  function Work(net: Network, n: nat): int {
    Unread(net.inbox) + n * (n * MAX_PEERS - Total(net.joined))
  }

  /** What reading one hello does to the two quantities work is made of. */
  lemma DeliveryTally(net: Network, n: nat, p: Id, ok: bool)
    requires NetInv(net, n) && p < n && net.inbox[p] != []
    ensures var net' := DoDeliver(net, p, ok);
            || (Unread(net'.inbox) == Unread(net.inbox) - 1 && Total(net'.joined) == Total(net.joined))
            || (Unread(net'.inbox) <= Unread(net.inbox) - 1 + n && Total(net'.joined) == Total(net.joined) + 1)
  {
    var net' := DoDeliver(net, p, ok);
    UnreadUpdate(net.inbox, p, net.inbox[p][1..]);
    var (joined, first) := Hear(net.joined[p], p, net.inbox[p][0]);
    if first {
      TotalUpdate(net.joined, p, joined);
      UnreadGrowth(Take(net, p).inbox, net'.inbox);
    }
  }

  /** Reading a hello always uses up work, even when it provokes a reply to everyone. */
  lemma DeliveryUsesWork(net: Network, n: nat, p: Id, ok: bool)
    requires NetInv(net, n) && p < n && net.connected[p] && net.inbox[p] != []
    ensures 0 <= Work(Step(net, Deliver(p, ok)), n) < Work(net, n)
  {
    var net' := Step(net, Deliver(p, ok));
    DeliverKeeps(net, n, p, ok);
    DeliveryTally(net, n, p, ok);
    TotalBound(net'.joined, MAX_PEERS);
    Distribute(n, n * MAX_PEERS - Total(net.joined));
    NonNegative(n, n * MAX_PEERS - Total(net'.joined));
  }

  lemma Distribute(n: nat, k: int)
    ensures n * (k - 1) == n * k - n
  {
  }

  lemma NonNegative(n: nat, k: int)
    requires k >= 0
    ensures n * k >= 0
  {
  }

  ghost predicate Reads(net: Network, actions: seq<Action>)
    requires Shape(net, |net.joined|)
  {
    forall i :: 0 <= i < |actions| ==>
                  && actions[i].Deliver? && actions[i].p < |net.joined|
                  && Run(net, actions[..i]).connected[actions[i].p] && Run(net, actions[..i]).inbox[actions[i].p] != []
  }

  /** With timers and reconnects quiet, discovery stops after a bounded number of reads. */
  lemma {:induction false} DiscoveryQuiesces(net: Network, n: nat, actions: seq<Action>)
    requires NetInv(net, n) && Reads(net, actions)
    ensures |actions| <= Work(net, n)
    ensures Work(Run(net, actions), n) <= Work(net, n) - |actions|
  {
    TotalBound(net.joined, MAX_PEERS);
    NonNegative(n, n * MAX_PEERS - Total(net.joined));
    if actions != [] {
      var k := |actions| - 1;
      var before := Run(net, actions[..k]);
      assert Reads(net, actions[..k]) by {
        forall i | 0 <= i < k ensures actions[..k][..i] == actions[..i] {
        }
      }
      DiscoveryQuiesces(net, n, actions[..k]);
      RunKeeps(net, n, actions[..k]);
      DeliveryUsesWork(before, n, actions[k].p, actions[k].ok);
    }
  }

  // ---- Mutual knowledge ---------------------------------------------------------

  /** `q` knows `p` or is about to read its hello; once it knows, `p` knows `q` or is about to. */
  ghost predicate Meeting(net: Network, p: Id, q: Id)
    requires Shape(net, |net.joined|) && p < |net.joined| && q < |net.joined|
  {
    && net.connected[p] && net.connected[q]
    && (if p in net.joined[q] then q in net.joined[p] || q in net.inbox[p] else p in net.inbox[q])
  }

  /** A run in which p and q stay connected and replies get out. */
  ghost predicate Undisturbed(a: Action, p: Id, q: Id) {
    && !(a.Disconnect? && (a.p == p || a.p == q))
    && (a.Deliver? ==> a.ok)
  }

  lemma FanOutMeets(net: Network, n: nat, p: Id, q: Id, from: Id)
    requires NetInv(net, n) && p < n && q < n && Meeting(net, p, q)
    ensures Meeting(FanOut(net, from), p, q)
  {
  }

  lemma InTail(s: seq<Id>, x: Id)
    requires s != [] && x in s
    ensures s[0] == x || x in s[1..]
  {
  }

  /** With at most 65 peers there is always room for one not seen yet. */
  lemma RoomForOneMore(net: Network, n: nat, p: Id, q: Id)
    requires NetInv(net, n) && n <= MAX_PEERS + 1 && p < n && q < n && p != q && q !in net.joined[p]
    ensures |net.joined[p]| < MAX_PEERS
  {
    SmallSet(net.joined[p] + {p} + {q}, n);
    assert p !in net.joined[p];
    assert |net.joined[p] + {p}| == |net.joined[p]| + 1;
  }

  /** Anything that keeps the two connected, forgets nobody and only appends hellos keeps the meeting. */
  lemma GrowthMeets(net: Network, net': Network, n: nat, p: Id, q: Id)
    requires Shape(net, n) && Shape(net', n) && p < n && q < n && Meeting(net, p, q)
    requires net'.connected[p] && net'.connected[q]
    requires net.joined[p] <= net'.joined[p] && net.joined[q] == net'.joined[q]
    requires forall x :: x in net.inbox[p] ==> x in net'.inbox[p]
    requires forall x :: x in net.inbox[q] ==> x in net'.inbox[q]
    ensures Meeting(net', p, q)
  {
  }

  lemma DeliverToQMeets(net: Network, n: nat, p: Id, q: Id)
    requires NetInv(net, n) && n <= MAX_PEERS + 1 && p < n && q < n && p != q
    requires Meeting(net, p, q) && net.inbox[q] != []
    ensures Meeting(DoDeliver(net, q, true), p, q)
  {
    var id := net.inbox[q][0];
    var net' := DoDeliver(net, q, true);
    if p in net.joined[q] {
      assert forall x :: x in net.inbox[p] ==> x in net'.inbox[p];
    } else if id == p {
      RoomForOneMore(net, n, q, p);
      assert net'.inbox[p] == net.inbox[p] + [q];
      assert net'.inbox[p][|net.inbox[p]|] == q;
    } else {
      InTail(net.inbox[q], p);
      assert p in Take(net, q).inbox[q];
      assert p in net'.inbox[q];
      assert p !in net'.joined[q];
    }
  }

  lemma DeliverToPMeets(net: Network, n: nat, p: Id, q: Id)
    requires NetInv(net, n) && n <= MAX_PEERS + 1 && p < n && q < n && p != q
    requires Meeting(net, p, q) && net.inbox[p] != []
    ensures Meeting(DoDeliver(net, p, true), p, q)
  {
    var net' := DoDeliver(net, p, true);
    assert forall x :: x in net.inbox[q] ==> x in net'.inbox[q];
    if p in net.joined[q] && q !in net.joined[p] {
      RoomForOneMore(net, n, p, q);
      InTail(net.inbox[p], q);
      if net.inbox[p][0] != q {
        assert q in Take(net, p).inbox[p];
      }
    }
  }

  lemma DeliverMeets(net: Network, n: nat, p: Id, q: Id, r: Id)
    requires NetInv(net, n) && n <= MAX_PEERS + 1 && p < n && q < n && p != q && r < n
    requires Meeting(net, p, q) && net.inbox[r] != []
    ensures Meeting(DoDeliver(net, r, true), p, q)
  {
    if r == q {
      DeliverToQMeets(net, n, p, q);
    } else if r == p {
      DeliverToPMeets(net, n, p, q);
    } else {
      GrowthMeets(net, DoDeliver(net, r, true), n, p, q);
    }
  }

  lemma StepMeets(net: Network, n: nat, p: Id, q: Id, a: Action)
    requires NetInv(net, n) && n <= MAX_PEERS + 1 && p < n && q < n && p != q
    requires Meeting(net, p, q) && Undisturbed(a, p, q)
    ensures Meeting(Step(net, a), p, q)
  {
    if a.p < n {
      match a {
        case Connect(r) =>
          if !net.connected[r] {
            GrowthMeets(net, Step(net, a), n, p, q);
          }
        case Disconnect(r) => GrowthMeets(net, Step(net, a), n, p, q);
        case ReHello(r) =>
          if net.connected[r] {
            FanOutMeets(net, n, p, q, r);
          }
        case Deliver(r, ok) =>
          if net.connected[r] && net.inbox[r] != [] {
            DeliverMeets(net, n, p, q, r);
          }
      }
    }
  }

  lemma {:induction false} RunMeets(net: Network, n: nat, p: Id, q: Id, actions: seq<Action>)
    requires NetInv(net, n) && n <= MAX_PEERS + 1 && p < n && q < n && p != q && Meeting(net, p, q)
    requires forall i :: 0 <= i < |actions| ==> Undisturbed(actions[i], p, q)
    ensures Meeting(Run(net, actions), p, q)
  {
    if actions != [] {
      var k := |actions| - 1;
      RunMeets(net, n, p, q, actions[..k]);
      RunKeeps(net, n, actions[..k]);
      StepMeets(Run(net, actions[..k]), n, p, q, actions[k]);
    }
  }

  /**
   With at most 65 peers, a newcomer's one hello is enough: whatever else the network
   does, once it and a subscriber that had not seen it have read their sockets empty,
   each has joined the other.
   */
  lemma NewcomerAndSubscriberMeet(n: nat, history: seq<Action>, p: Id, q: Id, actions: seq<Action>)
    requires n <= MAX_PEERS + 1 && p < n && q < n && p != q
    requires var net := Run(Fresh(n), history);
             !net.connected[p] && net.connected[q] && p !in net.joined[q]
    requires forall i :: 0 <= i < |actions| ==> Undisturbed(actions[i], p, q)
    ensures var net := Run(Step(Run(Fresh(n), history), Connect(p)), actions);
            net.inbox[p] == [] && net.inbox[q] == [] ==> p in net.joined[q] && q in net.joined[p]
  {
    FreshInv(n);
    RunKeeps(Fresh(n), n, history);
    var net := Run(Fresh(n), history);
    var met := Step(net, Connect(p));
    StepKeeps(net, n, Connect(p));
    assert met.inbox[q] == net.inbox[q] + [p];
    assert met.inbox[q][|net.inbox[q]|] == p;
    RunMeets(met, n, p, q, actions);
  }

  /**
   And the periodic hello heals whatever was missed: of two subscribers one of which has not
   seen the other, once the other has repeated its hello and both have read their sockets
   empty, each has joined the other.
   */
  lemma RepeatedHelloHeals(n: nat, history: seq<Action>, p: Id, q: Id, actions: seq<Action>)
    requires n <= MAX_PEERS + 1 && p < n && q < n && p != q
    requires var net := Run(Fresh(n), history);
             net.connected[p] && net.connected[q] && p !in net.joined[q]
    requires forall i :: 0 <= i < |actions| ==> Undisturbed(actions[i], p, q)
    ensures var net := Run(Step(Run(Fresh(n), history), ReHello(p)), actions);
            net.inbox[p] == [] && net.inbox[q] == [] ==> p in net.joined[q] && q in net.joined[p]
  {
    FreshInv(n);
    RunKeeps(Fresh(n), n, history);
    var net := Run(Fresh(n), history);
    var met := Step(net, ReHello(p));
    StepKeeps(net, n, ReHello(p));
    assert met.inbox[q] == net.inbox[q] + [p];
    assert met.inbox[q][|net.inbox[q]|] == p;
    RunMeets(met, n, p, q, actions);
  }

  // ---- Who is connected ------------------------------------------------------------

  predicate ConnectedLast(actions: seq<Action>, p: Id) {
    actions != []
    && var last := actions[|actions| - 1];
       if last.p == p && last.Connect? then true
       else if last.p == p && last.Disconnect? then false
       else ConnectedLast(actions[..|actions| - 1], p)
  }

  lemma ConnectionStep(net: Network, a: Action, p: Id)
    requires Shape(net, |net.joined|) && p < |net.joined|
    requires net.connected[p] || net.inbox[p] == []
    ensures var net' := Step(net, a);
            && (net'.connected[p] <==> (a.p == p && a.Connect?) || (net.connected[p] && !(a.p == p && a.Disconnect?)))
            && (net'.connected[p] || net'.inbox[p] == [])
            && (a.p == p && (a.Disconnect? || (a.Connect? && !net.connected[p])) ==> |net'.inbox[p]| <= 1)
  {
  }

  /** In every run a peer is connected iff it connected last, and one that is not has nothing to read. */
  lemma {:induction false} ConnectedIff(n: nat, actions: seq<Action>, p: Id)
    requires p < n
    ensures var net := Run(Fresh(n), actions);
            (net.connected[p] <==> ConnectedLast(actions, p)) && (!net.connected[p] ==> net.inbox[p] == [])
  {
    if actions != [] {
      var before := actions[..|actions| - 1];
      ConnectedIff(n, before, p);
      ConnectionStep(Run(Fresh(n), before), actions[|actions| - 1], p);
    }
  }
}
