/**
 Fragment trains of complete BLE wire messages, and the receiver that joins them.

 The fragmenter itself lives outside the repository. A message therefore carries
 its fragment plan: any split of its wire bytes into pieces. A zero-piece plan is
 kept in the model because the scheduler handles it with an error.
 */
module BleFragments {
  import opened Prelude

  datatype Message = Message(id: u16, chunks: seq<seq<byte>>)

  datatype Fragment = Fragment(id: u16, total: nat, offset: nat, start: bool, end: bool, payload: seq<byte>)

  function Flatten(chunks: seq<seq<byte>>): seq<byte> {
    if chunks == [] then [] else Flatten(chunks[..|chunks| - 1]) + chunks[|chunks| - 1]
  }

  function Wire(m: Message): seq<byte> {
    Flatten(m.chunks)
  }

  /** The fragmenter's contract: every piece carries at least one byte. */
  ghost predicate WellPlanned(m: Message) {
    forall k :: 0 <= k < |m.chunks| ==> |m.chunks[k]| > 0
  }

  function FragmentAt(m: Message, k: nat): Fragment
    requires k < |m.chunks|
  {
    Fragment(m.id, |Wire(m)|, |Flatten(m.chunks[..k])|, k == 0, k + 1 == |m.chunks|, m.chunks[k])
  }

  /** The first k fragments of a message. */
  function Fragments(m: Message, k: nat): seq<Fragment>
    requires k <= |m.chunks|
  {
    seq(k, i requires 0 <= i < k => FragmentAt(m, i))
  }

  /** All fragments of several messages, one message after the other. */
  function Train(messages: seq<Message>): seq<Fragment> {
    if messages == [] then []
    else
      var last := messages[|messages| - 1];
      Train(messages[..|messages| - 1]) + Fragments(last, |last.chunks|)
  }

  function Ids(messages: seq<Message>): seq<u16> {
    seq(|messages|, i requires 0 <= i < |messages| => messages[i].id)
  }

  function Payloads(fragments: seq<Fragment>): seq<seq<byte>> {
    seq(|fragments|, i requires 0 <= i < |fragments| => fragments[i].payload)
  }

  lemma FlattenStep(chunks: seq<seq<byte>>, k: nat)
    requires k < |chunks|
    ensures Flatten(chunks[..k + 1]) == Flatten(chunks[..k]) + chunks[k]
  {
    assert chunks[..k + 1][..k] == chunks[..k];
  }

  lemma TrainStep(messages: seq<Message>, k: nat)
    requires k < |messages|
    ensures Train(messages[..k + 1]) == Train(messages[..k]) + Fragments(messages[k], |messages[k].chunks|)
  {
    assert messages[..k + 1][..k] == messages[..k];
  }

  lemma {:induction false} TrainPrefix(messages: seq<Message>, j: nat, k: nat)
    requires j <= k <= |messages|
    ensures Train(messages[..j]) <= Train(messages[..k])
    decreases k
  {
    if j < k {
      TrainPrefix(messages, j, k - 1);
      TrainStep(messages, k - 1);
    }
  }

  /** A prefix of the plan flattens to a prefix of the wire, strictly shorter when pieces are missing. */
  lemma {:induction false} FlattenPrefix(m: Message, k: nat)
    requires k <= |m.chunks|
    ensures Flatten(m.chunks[..k]) <= Wire(m)
    ensures WellPlanned(m) && k < |m.chunks| ==> |Flatten(m.chunks[..k])| < |Wire(m)|
    decreases |m.chunks| - k
  {
    if k == |m.chunks| {
      assert m.chunks[..k] == m.chunks;
    } else {
      FlattenPrefix(m, k + 1);
      FlattenStep(m.chunks, k);
    }
  }

  /** Joining the payloads of a message's first k fragments gives the bytes of its first k pieces. */
  lemma PayloadsJoin(m: Message, k: nat)
    requires k <= |m.chunks|
    ensures Flatten(Payloads(Fragments(m, k))) == Flatten(m.chunks[..k])
    ensures Flatten(Payloads(Fragments(m, k))) <= Wire(m)
    ensures k == |m.chunks| ==> Flatten(Payloads(Fragments(m, k))) == Wire(m)
  {
    assert Payloads(Fragments(m, k)) == m.chunks[..k];
    FlattenPrefix(m, k);
    if k == |m.chunks| {
      assert m.chunks[..k] == m.chunks;
    }
  }

  // ---- The receiving side -------------------------------------------------

  datatype Partial = Partial(total: nat, bytes: seq<byte>)

  /** A reassembler with the three-partial budget the link configures for both ends. */
  datatype Receiver = Receiver(partial: map<u16, Partial>, delivered: seq<(u16, seq<byte>)>, refused: bool)

  const PARTIAL_BUDGET: nat := 3

  const FreshReceiver: Receiver := Receiver(map[], [], false)

  function Push(r: Receiver, f: Fragment): Receiver {
    if r.refused then r
    else if f.start then
      if f.id in r.partial || f.offset != 0 then r.(refused := true)
      else Grow(r, f, Partial(f.total, []))
    else if f.id !in r.partial then r.(refused := true)
    else if r.partial[f.id].total != f.total || f.offset != |r.partial[f.id].bytes| then r.(refused := true)
    else Grow(r, f, r.partial[f.id])
  }

  function Grow(r: Receiver, f: Fragment, p: Partial): Receiver {
    var bytes := p.bytes + f.payload;
    if f.end then
      if |bytes| != p.total then r.(refused := true)
      else Receiver(r.partial - {f.id}, r.delivered + [(f.id, bytes)], false)
    else if |bytes| >= p.total then r.(refused := true)
    else
      var partial := r.partial[f.id := Partial(p.total, bytes)];
      if |partial| > PARTIAL_BUDGET then r.(refused := true) else r.(partial := partial)
  }

  /** What the receiver holds of a message once its first k pieces have arrived. */
  function PartialAfter(m: Message, k: nat): Partial
    requires k <= |m.chunks|
  {
    Partial(|Wire(m)|, Flatten(m.chunks[..k]))
  }

  /** The receiver accepts the next fragment of a message it holds exactly the earlier fragments of. */
  lemma PushNext(r: Receiver, m: Message, k: nat)
    requires WellPlanned(m) && k < |m.chunks| && !r.refused
    requires if k == 0 then m.id !in r.partial else m.id in r.partial && r.partial[m.id] == PartialAfter(m, k)
    requires k == 0 && |m.chunks| > 1 ==> |r.partial| < PARTIAL_BUDGET
    requires |r.partial| <= PARTIAL_BUDGET
    ensures var r' := Push(r, FragmentAt(m, k));
            !r'.refused &&
            if k + 1 == |m.chunks| then
              r' == Receiver(r.partial - {m.id}, r.delivered + [(m.id, Wire(m))], false)
            else
              r' == r.(partial := r.partial[m.id := PartialAfter(m, k + 1)])
  {
    FlattenStep(m.chunks, k);
    FlattenPrefix(m, k + 1);
    if k + 1 == |m.chunks| {
      assert m.chunks[..k + 1] == m.chunks;
    } else {
      var partial := r.partial[m.id := PartialAfter(m, k + 1)];
      if k == 0 {
        assert m.chunks[..0] == [];
        assert partial.Keys == r.partial.Keys + {m.id};
      } else {
        assert partial.Keys == r.partial.Keys;
      }
      assert |partial| <= PARTIAL_BUDGET;
    }
  }
}
