/** One peer's signalling session: which messages count as hellos, and what a hello does. */
module Rendezvous {
  import opened Prelude
  import PeerSync
  import Discovery
  import Incarnations

  const HELLO_VERSION: nat := 5

  /** `id` and `relay` are what parsing their texts gave. */
  datatype HelloMessage = HelloMessage(
    kindMatches: bool, version: nat, support: bv8, id: Option<nat>, relay: Option<nat>,
    rtc: bool, incarnation: Option<nat>)

  /** A frame from the server after JSON decoding, which is not part of this model. */
  datatype Message = Undecodable | Ping | Other | RtcEnvelope | Publish(hello: HelloMessage)

  /** The id a message announces, if it is a valid hello of somebody else. */
  function Announces(m: Message, our: nat): Option<nat> {
    if m.Publish? && m.hello.kindMatches && m.hello.version == HELLO_VERSION
       && PeerSync.IsSupport(m.hello.support) && m.hello.id.Some? && m.hello.id.value != our
    then m.hello.id else None
  }

  /** An address put into the endpoint's lookup. */
  datatype Address = Address(id: nat, relay: Option<nat>)

  /**
   What a message makes the session do: answer a ping, store an address, announce a new
   peer to the application, have gossip join it, and send our own hello back.
   */
  datatype Reaction = Reaction(
    pong: bool, addressed: Option<Address>, discovered: Option<nat>, meshed: Option<nat>, replied: bool)

  const Silence: Reaction := Reaction(false, None, None, None, false)

  class Session {
    const our: nat
    var joined: set<nat>
    const incarnations: Incarnations.RtcIncarnationTracker

    constructor (id: nat)
      ensures our == id && joined == {} && fresh(incarnations) && incarnations.seen == map[]
    {
      our := id;
      joined := {};
      incarnations := new Incarnations.RtcIncarnationTracker();
    }

    /**
     A new id below the cap is stored, announced, joined and answered with our own hello;
     a known one only has its address refreshed; nothing else has any effect.
     */
    method HandleMessage(m: Message) returns (r: Reaction)
      modifies this`joined, incarnations
      ensures r.pong <==> m.Ping?
      ensures r.meshed == r.discovered && (r.replied <==> r.discovered.Some?)
      ensures var id := Announces(m, our);
              if id.None? then
                joined == old(joined) && incarnations.seen == old(incarnations.seen) && r == Silence.(pong := m.Ping?)
              else
                && (joined, r.discovered.Some?) == Discovery.Hear(old(joined), our, id.value)
                && (r.discovered.Some? ==> r.discovered == id)
                && r.addressed == (if id.value in joined then Some(Address(id.value, m.hello.relay)) else None)
                && incarnations.seen ==
                   if m.hello.rtc && m.hello.incarnation.Some?
                   then Incarnations.Observe(old(incarnations.seen), id.value, m.hello.incarnation.value).0
                   else old(incarnations.seen)
    {
      r := Silence;
      match m {
        case Undecodable =>
        case Ping => r := Silence.(pong := true);
        case Other =>
        case RtcEnvelope =>
        case Publish(hello) =>
          if !hello.kindMatches || hello.version != HELLO_VERSION || !PeerSync.IsSupport(hello.support) {
            return;
          }
          if hello.id.None? || hello.id.value == our {
            return;
          }
          var id := hello.id.value;
          if hello.rtc && hello.incarnation.Some? {
            var _ := incarnations.ObserveHello(id, hello.incarnation.value);
          }
          var address := Address(id, hello.relay);
          if id in joined {
            r := Silence.(addressed := Some(address));
          } else if |joined| < Discovery.MAX_PEERS {
            joined := joined + {id};
            r := Reaction(false, Some(address), Some(id), Some(id), true);
          }
      }
    }
  }
}
