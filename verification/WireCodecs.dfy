/** The room's gossip messages and tickets on the wire. */
module WireCodecs {
  import opened Prelude
  import opened Bytes
  import PS = PeerSync

  const GENERATION: nat := 5
  const TICKET_FORMAT: nat := 3
  const MAX_TICKET_BYTES: nat := 64 * 1024
  const SIGNATURE_BYTES: nat := 64

  const HintDomain: seq<byte> := Ascii("walkie replica repair hint v5\0")
  const ProbeDomain: seq<byte> := Ascii("walkie replica repair probe v5\0")
  const LiveDomain: seq<byte> := Ascii("walkie replica live record v5\0")
  const RealtimeDomain: seq<byte> := Ascii("walkie room realtime v1\0")

  function LaneTag(lane: PS.Lane): byte {
    match lane
    case Music => 1
    case Extension => 2
  }

  function LaneOf(tag: byte): Option<PS.Lane> {
    if tag == LaneTag(PS.Music) then Some(PS.Music)
    else if tag == LaneTag(PS.Extension) then Some(PS.Extension)
    else None
  }

  // ---- The common header ----------------------------------------------------------

  /** Domain, generation, lane and source: what every lane message starts with. */
  function Header(domain: seq<byte>, lane: PS.Lane, source: seq<byte>): seq<byte> {
    domain + Le(GENERATION, 4) + [LaneTag(lane)] + source
  }

  datatype Headed = Headed(lane: PS.Lane, source: seq<byte>, rest: seq<byte>)

  /** Read the header of a message at least as long as one. */
  function ParseHeader(domain: seq<byte>, bytes: seq<byte>): Option<Headed>
    requires |bytes| >= |domain| + 37
  {
    var c := |domain|;
    if !StartsWith(bytes, domain) || FromLe(bytes[c..c + 4]) != GENERATION || LaneOf(bytes[c + 4]).None? then None
    else Some(Headed(LaneOf(bytes[c + 4]).value, bytes[c + 5..c + 37], bytes[c + 37..]))
  }

  lemma GenerationBytes(b: seq<byte>)
    requires |b| == 4
    ensures |Le(GENERATION, 4)| == 4
    ensures FromLe(b) == GENERATION <==> b == Le(GENERATION, 4)
  {
    LeLength(GENERATION, 4);
    Widths();
    LeRoundTrip(GENERATION, 4);
    LeInverse(b);
  }

  lemma LaneTags(tag: byte, lane: PS.Lane)
    ensures LaneOf(tag) == Some(lane) <==> tag == LaneTag(lane)
  {
  }

  lemma HeaderParses(domain: seq<byte>, lane: PS.Lane, source: seq<byte>, rest: seq<byte>)
    requires |source| == 32
    ensures |Header(domain, lane, source)| == |domain| + 37
    ensures ParseHeader(domain, Header(domain, lane, source) + rest) == Some(Headed(lane, source, rest))
  {
    var bytes := Header(domain, lane, source) + rest;
    var c := |domain|;
    GenerationBytes(Le(GENERATION, 4));
    assert bytes[..c] == domain;
    assert bytes[c..c + 4] == Le(GENERATION, 4);
    assert bytes[c + 4] == LaneTag(lane);
    LaneTags(bytes[c + 4], lane);
    assert bytes[c + 5..c + 37] == source;
    assert bytes[c + 37..] == rest;
  }

  lemma ParsedHeaderWasWritten(domain: seq<byte>, bytes: seq<byte>)
    requires |bytes| >= |domain| + 37 && ParseHeader(domain, bytes).Some?
    ensures var h := ParseHeader(domain, bytes).value;
            |h.source| == 32 && bytes == Header(domain, h.lane, h.source) + h.rest
  {
    var h := ParseHeader(domain, bytes).value;
    var c := |domain|;
    GenerationBytes(bytes[c..c + 4]);
    LaneTags(bytes[c + 4], h.lane);
    assert bytes == bytes[..c] + bytes[c..c + 4] + [bytes[c + 4]] + bytes[c + 5..c + 37] + bytes[c + 37..];
  }

  // ---- Repair hints and probes ------------------------------------------------------

  /** A hint carries an entry hash, a probe a frontier digest; they differ only in domain. */
  datatype Notice = Notice(lane: PS.Lane, source: seq<byte>, digest: seq<byte>)

  ghost predicate NoticeOk(n: Notice) {
    |n.source| == 32 && |n.digest| == 32
  }

  function NoticeWire(domain: seq<byte>, n: Notice): seq<byte> {
    Header(domain, n.lane, n.source) + n.digest
  }

  function ParseNotice(domain: seq<byte>, bytes: seq<byte>): Option<Notice> {
    if |bytes| != |domain| + 69 then None
    else
      var h := ParseHeader(domain, bytes);
      if h.None? then None else Some(Notice(h.value.lane, h.value.source, h.value.rest))
  }

  /** Decoding accepts exactly the image of encoding, and recovers what was encoded. */
  lemma NoticeRoundTrip(domain: seq<byte>, n: Notice, bytes: seq<byte>)
    ensures NoticeOk(n) ==> ParseNotice(domain, NoticeWire(domain, n)) == Some(n)
    ensures ParseNotice(domain, bytes) == Some(n) ==> NoticeOk(n) && bytes == NoticeWire(domain, n)
  {
    if NoticeOk(n) {
      HeaderParses(domain, n.lane, n.source, n.digest);
    }
    if ParseNotice(domain, bytes) == Some(n) {
      ParsedHeaderWasWritten(domain, bytes);
    }
  }

  method EncodeNotice(domain: seq<byte>, n: Notice) returns (bytes: seq<byte>)
    ensures bytes == NoticeWire(domain, n)
  {
    bytes := [];
    bytes := bytes + domain;
    bytes := bytes + Le(GENERATION, 4);
    bytes := bytes + [LaneTag(n.lane)];
    bytes := bytes + n.source;
    bytes := bytes + n.digest;
  }

  method DecodeNotice(domain: seq<byte>, bytes: seq<byte>) returns (r: Option<Notice>)
    ensures forall n :: r == Some(n) <==> NoticeOk(n) && bytes == NoticeWire(domain, n)
  {
    if |bytes| != |domain| + 69 || !StartsWith(bytes, domain) {
      NotParsed(domain, bytes, None);
      return None;
    }
    var cursor := |domain|;
    var generation := FromLe(bytes[cursor..cursor + 4]);
    cursor := cursor + 4;
    if generation != GENERATION {
      NotParsed(domain, bytes, None);
      return None;
    }
    var lane := LaneOf(bytes[cursor]);
    if lane.None? {
      NotParsed(domain, bytes, None);
      return None;
    }
    cursor := cursor + 1;
    var source := bytes[cursor..cursor + 32];
    cursor := cursor + 32;
    var digest := bytes[cursor..cursor + 32];
    r := Some(Notice(lane.value, source, digest));
    assert bytes[cursor..] == digest;
    NotParsed(domain, bytes, r);
  }

  lemma NotParsed(domain: seq<byte>, bytes: seq<byte>, r: Option<Notice>)
    requires r == ParseNotice(domain, bytes)
    ensures forall n :: r == Some(n) <==> NoticeOk(n) && bytes == NoticeWire(domain, n)
  {
    forall n ensures r == Some(n) <==> NoticeOk(n) && bytes == NoticeWire(domain, n) {
      NoticeRoundTrip(domain, n, bytes);
    }
  }

  // ---- Live records -----------------------------------------------------------------

  /** An admission record's own codec, which belongs to the replica library. */
  datatype RecordCodec<!R> = RecordCodec(encode: R -> seq<byte>, decode: seq<byte> -> Option<R>)

  datatype Live<R> = Live(lane: PS.Lane, source: seq<byte>, record: R)

  function LiveWire<R>(codec: RecordCodec<R>, live: Live<R>): seq<byte> {
    Header(LiveDomain, live.lane, live.source) + codec.encode(live.record)
  }

  function ParseLive<R>(codec: RecordCodec<R>, bytes: seq<byte>): Option<Live<R>> {
    if |bytes| <= |LiveDomain| + 37 then None
    else
      var h := ParseHeader(LiveDomain, bytes);
      if h.None? then None
      else
        var record := codec.decode(h.value.rest);
        if record.None? then None else Some(Live(h.value.lane, h.value.source, record.value))
  }

  /**
   Given a record codec that undoes itself, a live record survives the wire exactly when
   its encoding is not empty; and what is decoded carries the header it was sent with.
   */
  lemma LiveRoundTrip<R>(codec: RecordCodec<R>, live: Live<R>)
    requires |live.source| == 32 && codec.decode(codec.encode(live.record)) == Some(live.record)
    ensures ParseLive(codec, LiveWire(codec, live)) == Some(live) <==> codec.encode(live.record) != []
  {
    HeaderParses(LiveDomain, live.lane, live.source, codec.encode(live.record));
  }

  lemma LiveDecodesItsHeader<R>(codec: RecordCodec<R>, bytes: seq<byte>)
    requires ParseLive(codec, bytes).Some?
    ensures var live := ParseLive(codec, bytes).value;
            && StartsWith(bytes, Header(LiveDomain, live.lane, live.source))
            && codec.decode(bytes[|LiveDomain| + 37..]) == Some(live.record)
  {
    ParsedHeaderWasWritten(LiveDomain, bytes);
  }

  method EncodeLive<R>(codec: RecordCodec<R>, live: Live<R>) returns (bytes: seq<byte>)
    ensures bytes == LiveWire(codec, live)
    ensures |live.source| == 32 && codec.decode(codec.encode(live.record)) == Some(live.record) ==>
              (ParseLive(codec, bytes) == Some(live) <==> codec.encode(live.record) != [])
  {
    if |live.source| == 32 && codec.decode(codec.encode(live.record)) == Some(live.record) {
      LiveRoundTrip(codec, live);
    }
    var record := codec.encode(live.record);
    bytes := [];
    bytes := bytes + LiveDomain;
    bytes := bytes + Le(GENERATION, 4);
    bytes := bytes + [LaneTag(live.lane)];
    bytes := bytes + live.source;
    bytes := bytes + record;
  }

  method DecodeLive<R>(codec: RecordCodec<R>, bytes: seq<byte>) returns (r: Option<Live<R>>)
    ensures r == ParseLive(codec, bytes)
  {
    if |bytes| <= |LiveDomain| + 37 || !StartsWith(bytes, LiveDomain) {
      return None;
    }
    var cursor := |LiveDomain|;
    var generation := FromLe(bytes[cursor..cursor + 4]);
    cursor := cursor + 4;
    if generation != GENERATION {
      return None;
    }
    var lane := LaneOf(bytes[cursor]);
    if lane.None? {
      return None;
    }
    cursor := cursor + 1;
    var source := bytes[cursor..cursor + 32];
    cursor := cursor + 32;
    var record := codec.decode(bytes[cursor..]);
    if record.None? {
      return None;
    }
    return Some(Live(lane.value, source, record.value));
  }

  // ---- Realtime -----------------------------------------------------------------------

  datatype RealtimeError = Malformed | WrongRoom | InvalidSignature

  /** Frame codec and signatures, both external. `verify(source, message, signature)` includes key parsing. */
  datatype RealtimeEnv<!F> = RealtimeEnv(
    encode: F -> Option<seq<byte>>, decode: seq<byte> -> Option<F>,
    source: seq<byte>, sign: seq<byte> -> seq<byte>, verify: (seq<byte>, seq<byte>, seq<byte>) -> bool)

  datatype Realtime<F> = Realtime(source: seq<byte>, session: nat, sequence: nat, frame: F)

  function SignedPart(room: seq<byte>, source: seq<byte>, session: nat, sequence: nat, payload: seq<byte>): seq<byte> {
    RealtimeDomain + Le(GENERATION, 4) + room + source + Le(session, 8) + Le(sequence, 8) + Le(|payload|, 2) + payload
  }

  function RealtimeWire<F>(env: RealtimeEnv<F>, room: seq<byte>, session: nat, sequence: nat,
                           frame: F): Result<seq<byte>, RealtimeError> {
    var payload := env.encode(frame);
    if payload.None? || |payload.value| > 0xFFFF then Err(Malformed)
    else
      var signed := SignedPart(room, env.source, session, sequence, payload.value);
      Ok(signed + env.sign(signed))
  }

  /** Offsets after the domain: generation 4, room 32, source 32, session 8, sequence 8, length 2. */
  function ParseRealtime<F>(env: RealtimeEnv<F>, room: seq<byte>, bytes: seq<byte>)
    : Result<Realtime<F>, RealtimeError>
  {
    var c := |RealtimeDomain|;
    if |bytes| < c + 86 + SIGNATURE_BYTES || !StartsWith(bytes, RealtimeDomain) then Err(Malformed)
    else if FromLe(bytes[c..c + 4]) != GENERATION || bytes[c + 4..c + 36] != room then Err(WrongRoom)
    else
      var end := c + 86 + FromLe(bytes[c + 84..c + 86]);
      if end + SIGNATURE_BYTES != |bytes| then Err(Malformed)
      else
        var source := bytes[c + 36..c + 68];
        if !env.verify(source, bytes[..end], bytes[end..]) then Err(InvalidSignature)
        else
          var frame := env.decode(bytes[c + 86..end]);
          if frame.None? then Err(Malformed)
          else Ok(Realtime(source, FromLe(bytes[c + 68..c + 76]), FromLe(bytes[c + 76..c + 84]), frame.value))
  }

  ghost predicate U64(n: nat) {
    n < 0x1_0000_0000_0000_0000
  }

  /** Where the parts of a concatenation lie. */
  lemma Parts(a: seq<byte>, b: seq<byte>, c: seq<byte>, d: seq<byte>)
    ensures var s := a + b + c + d;
            && |s| == |a| + |b| + |c| + |d|
            && s[..|a|] == a && s[|a|..|a| + |b|] == b
            && s[|a| + |b|..|a| + |b| + |c|] == c && s[|a| + |b| + |c|..] == d
  {
  }

  /** The parts of a tail are found behind its front. */
  lemma Behind(front: seq<byte>, tail: seq<byte>, i: nat, j: nat)
    requires i <= j <= |tail|
    ensures (front + tail)[|front| + i..|front| + j] == tail[i..j]
    ensures (front + tail)[|front| + i..] == tail[i..]
  {
  }

  /** Generation and room after the domain; then source and counters; then the payload with its length. */
  lemma SignedPartSplits(room: seq<byte>, source: seq<byte>, session: nat, sequence: nat, payload: seq<byte>)
    ensures SignedPart(room, source, session, sequence, payload)
         == (RealtimeDomain + Le(GENERATION, 4) + room + source)
            + (Le(session, 8) + Le(sequence, 8) + Le(|payload|, 2) + payload)
  {
    Regroup(RealtimeDomain + Le(GENERATION, 4) + room + source, Le(session, 8), Le(sequence, 8), Le(|payload|, 2),
            payload);
  }

  lemma Regroup(front: seq<byte>, a: seq<byte>, b: seq<byte>, c: seq<byte>, d: seq<byte>)
    ensures front + a + b + c + d == front + (a + b + c + d)
  {
  }

  lemma NumberLengths(session: nat, sequence: nat, length: nat)
    ensures |Le(GENERATION, 4)| == 4 && |Le(session, 8)| == 8 && |Le(sequence, 8)| == 8 && |Le(length, 2)| == 2
  {
    LeLength(GENERATION, 4);
    LeLength(session, 8);
    LeLength(sequence, 8);
    LeLength(length, 2);
  }

  lemma NumbersReadBack(session: nat, sequence: nat, length: nat)
    requires U64(session) && U64(sequence) && length <= 0xFFFF
    ensures FromLe(Le(GENERATION, 4)) == GENERATION
    ensures FromLe(Le(session, 8)) == session && FromLe(Le(sequence, 8)) == sequence && FromLe(Le(length, 2)) == length
  {
    Widths();
    LeRoundTrip(GENERATION, 4);
    LeRoundTrip(session, 8);
    LeRoundTrip(sequence, 8);
    LeRoundTrip(length, 2);
  }

  /** The byte ranges of the signed part, before any number in them is read. */
  lemma SignedPartRanges(room: seq<byte>, source: seq<byte>, session: nat, sequence: nat, payload: seq<byte>)
    requires |room| == 32 && |source| == 32
    ensures var s := SignedPart(room, source, session, sequence, payload);
            var c := |RealtimeDomain|;
            && |s| == c + 86 + |payload|
            && s[..c] == RealtimeDomain && s[c..c + 4] == Le(GENERATION, 4) && s[c + 4..c + 36] == room
            && s[c + 36..c + 68] == source && s[c + 68..c + 76] == Le(session, 8)
            && s[c + 76..c + 84] == Le(sequence, 8) && s[c + 84..c + 86] == Le(|payload|, 2) && s[c + 86..] == payload
  {
    var c := |RealtimeDomain|;
    var front := RealtimeDomain + Le(GENERATION, 4) + room + source;
    var tail := Le(session, 8) + Le(sequence, 8) + Le(|payload|, 2) + payload;
    NumberLengths(session, sequence, |payload|);
    SignedPartSplits(room, source, session, sequence, payload);
    Parts(RealtimeDomain, Le(GENERATION, 4), room, source);
    Parts(Le(session, 8), Le(sequence, 8), Le(|payload|, 2), payload);
    Behind(front, tail, 0, 8);
    Behind(front, tail, 8, 16);
    Behind(front, tail, 16, 18);
    Behind(front, tail, 18, |tail|);
    Slices(front, tail, 0, c);
    Slices(front, tail, c, c + 4);
    Slices(front, tail, c + 4, c + 36);
    Slices(front, tail, c + 36, c + 68);
  }

  lemma SignedPartLayout(room: seq<byte>, source: seq<byte>, session: nat, sequence: nat, payload: seq<byte>)
    requires |room| == 32 && |source| == 32 && U64(session) && U64(sequence) && |payload| <= 0xFFFF
    ensures var s := SignedPart(room, source, session, sequence, payload);
            var c := |RealtimeDomain|;
            && |s| == c + 86 + |payload|
            && s[..c] == RealtimeDomain && FromLe(s[c..c + 4]) == GENERATION && s[c + 4..c + 36] == room
            && s[c + 36..c + 68] == source && FromLe(s[c + 68..c + 76]) == session
            && FromLe(s[c + 76..c + 84]) == sequence
            && FromLe(s[c + 84..c + 86]) == |payload| && s[c + 86..] == payload
  {
    SignedPartRanges(room, source, session, sequence, payload);
    NumbersReadBack(session, sequence, |payload|);
  }

  /** What decoding sees of a message is a prefix of it. */
  lemma Slices(s: seq<byte>, t: seq<byte>, a: nat, b: nat)
    requires a <= b <= |s|
    ensures (s + t)[a..b] == s[a..b]
  {
  }

  lemma EncodedLayout(signed: seq<byte>, signature: seq<byte>, room: seq<byte>, source: seq<byte>, session: nat,
                      sequence: nat, payload: seq<byte>)
    requires |room| == 32 && |source| == 32 && U64(session) && U64(sequence) && |payload| <= 0xFFFF
    requires signed == SignedPart(room, source, session, sequence, payload)
    ensures var s := signed + signature;
            var c := |RealtimeDomain|;
            && |signed| == c + 86 + |payload|
            && StartsWith(s, RealtimeDomain) && FromLe(s[c..c + 4]) == GENERATION && s[c + 4..c + 36] == room
            && s[c + 36..c + 68] == source && FromLe(s[c + 68..c + 76]) == session
            && FromLe(s[c + 76..c + 84]) == sequence
            && FromLe(s[c + 84..c + 86]) == |payload| && s[c + 86..|signed|] == payload
            && s[..|signed|] == signed && s[|signed|..] == signature
  {
    SignedPartLayout(room, source, session, sequence, payload);
    var c := |RealtimeDomain|;
    Slices(signed, signature, 0, c);
    Slices(signed, signature, c, c + 4);
    Slices(signed, signature, c + 4, c + 36);
    Slices(signed, signature, c + 36, c + 68);
    Slices(signed, signature, c + 68, c + 76);
    Slices(signed, signature, c + 76, c + 84);
    Slices(signed, signature, c + 84, c + 86);
    Slices(signed, signature, c + 86, |signed|);
  }

  /** The frame codec undoes itself and own signatures of the right size verify. */
  ghost predicate Honest<F>(env: RealtimeEnv<F>, frame: F) {
    && |env.source| == 32
    && env.encode(frame).Some? && |env.encode(frame).value| <= 0xFFFF
    && env.decode(env.encode(frame).value) == Some(frame)
  }

  ghost predicate Signs<F>(env: RealtimeEnv<F>, message: seq<byte>) {
    |env.sign(message)| == SIGNATURE_BYTES && env.verify(env.source, message, env.sign(message))
  }

  ghost predicate Sendable<F>(env: RealtimeEnv<F>, room: seq<byte>, session: nat, sequence: nat, frame: F) {
    && |room| == 32 && U64(session) && U64(sequence) && Honest(env, frame)
    && Signs(env, SignedPart(room, env.source, session, sequence, env.encode(frame).value))
  }

  /**
   A realtime message decodes in its own room to what was sent, with the sender's
   identity; in any other room it is refused as foreign.
   */
  lemma RealtimeRoundTrip<F>(env: RealtimeEnv<F>, room: seq<byte>, elsewhere: seq<byte>, session: nat, sequence: nat,
                             frame: F)
    requires Sendable(env, room, session, sequence, frame) && elsewhere != room
    ensures var wire := RealtimeWire(env, room, session, sequence, frame);
            && wire.Ok?
            && ParseRealtime(env, room, wire.value) == Ok(Realtime(env.source, session, sequence, frame))
            && ParseRealtime(env, elsewhere, wire.value) == Err(WrongRoom)
  {
    var payload := env.encode(frame).value;
    var signed := SignedPart(room, env.source, session, sequence, payload);
    EncodedLayout(signed, env.sign(signed), room, env.source, session, sequence, payload);
  }

  /** What is signed, field by field. */
  method SignedBytes(room: seq<byte>, source: seq<byte>, session: nat, sequence: nat, payload: seq<byte>)
    returns (bytes: seq<byte>)
    ensures bytes == SignedPart(room, source, session, sequence, payload)
  {
    bytes := [];
    bytes := bytes + RealtimeDomain;
    bytes := bytes + Le(GENERATION, 4);
    bytes := bytes + room;
    bytes := bytes + source;
    bytes := bytes + Le(session, 8);
    bytes := bytes + Le(sequence, 8);
    bytes := bytes + Le(|payload|, 2);
    bytes := bytes + payload;
  }

  lemma RealtimeSurvives<F>(env: RealtimeEnv<F>, room: seq<byte>, session: nat, sequence: nat, frame: F)
    ensures var wire := RealtimeWire(env, room, session, sequence, frame);
            wire.Ok? && Sendable(env, room, session, sequence, frame) ==>
              ParseRealtime(env, room, wire.value) == Ok(Realtime(env.source, session, sequence, frame))
  {
    if Sendable(env, room, session, sequence, frame) {
      RealtimeRoundTrip(env, room, [], session, sequence, frame);
    }
  }

  method EncodeRealtime<F>(env: RealtimeEnv<F>, room: seq<byte>, session: nat, sequence: nat, frame: F)
    returns (r: Result<seq<byte>, RealtimeError>)
    ensures r == RealtimeWire(env, room, session, sequence, frame)
    ensures r.Err? <==> env.encode(frame).None? || |env.encode(frame).value| > 0xFFFF
    ensures r.Ok? && Sendable(env, room, session, sequence, frame) ==>
              ParseRealtime(env, room, r.value) == Ok(Realtime(env.source, session, sequence, frame))
  {
    RealtimeSurvives(env, room, session, sequence, frame);
    var payload := env.encode(frame);
    if payload.None? || |payload.value| > 0xFFFF {
      return Err(Malformed);
    }
    var bytes := SignedBytes(room, env.source, session, sequence, payload.value);
    return Ok(bytes + env.sign(bytes));
  }

  /** Reading `n` bytes at a cursor; the cursor moves only if they are there. */
  method TakeArray(bytes: seq<byte>, cursor: nat, n: nat) returns (r: Result<seq<byte>, RealtimeError>, next: nat)
    ensures r.Ok? <==> cursor + n <= |bytes|
    ensures r.Ok? ==> next == cursor + n && r.value == bytes[cursor..next]
    ensures r.Err? ==> next == cursor && r.error == Malformed
  {
    if cursor + n > |bytes| {
      return Err(Malformed), cursor;
    }
    return Ok(bytes[cursor..cursor + n]), cursor + n;
  }

  method DecodeRealtime<F>(env: RealtimeEnv<F>, room: seq<byte>, bytes: seq<byte>)
    returns (r: Result<Realtime<F>, RealtimeError>)
    ensures r == ParseRealtime(env, room, bytes)
  {
    if |bytes| < |RealtimeDomain| + 86 + SIGNATURE_BYTES || !StartsWith(bytes, RealtimeDomain) {
      return Err(Malformed);
    }
    var cursor := |RealtimeDomain|;
    var generation, owner, source, session, sequence, length;
    generation, cursor := TakeArray(bytes, cursor, 4);
    owner, cursor := TakeArray(bytes, cursor, 32);
    if FromLe(generation.value) != GENERATION || owner.value != room {
      return Err(WrongRoom);
    }
    source, cursor := TakeArray(bytes, cursor, 32);
    session, cursor := TakeArray(bytes, cursor, 8);
    sequence, cursor := TakeArray(bytes, cursor, 8);
    length, cursor := TakeArray(bytes, cursor, 2);
    var end := cursor + FromLe(length.value);
    if end + SIGNATURE_BYTES != |bytes| {
      return Err(Malformed);
    }
    if !env.verify(source.value, bytes[..end], bytes[end..]) {
      return Err(InvalidSignature);
    }
    var frame := env.decode(bytes[cursor..end]);
    if frame.None? {
      return Err(Malformed);
    }
    return Ok(Realtime(source.value, FromLe(session.value), FromLe(sequence.value), frame.value));
  }

  // ---- No message is two things -------------------------------------------------------

  lemma DomainLengths()
    ensures |HintDomain| == 30 && |ProbeDomain| == 31 && |LiveDomain| == 30 && |RealtimeDomain| == 24
  {
  }

  lemma PrefixAt(bytes: seq<byte>, prefix: seq<byte>, i: nat)
    requires i < |prefix|
    ensures StartsWith(bytes, prefix) ==> i < |bytes| && bytes[i] == prefix[i]
  {
  }

  lemma Apart(bytes: seq<byte>, a: seq<byte>, b: seq<byte>, i: nat)
    requires i < |a| && i < |b| && a[i] != b[i]
    ensures !(StartsWith(bytes, a) && StartsWith(bytes, b))
  {
    PrefixAt(bytes, a, i);
    PrefixAt(bytes, b, i);
  }

  datatype Kind = HintKind | ProbeKind | LiveKind | RealtimeKind

  function DomainOf(k: Kind): seq<byte> {
    match k
    case HintKind => HintDomain
    case ProbeKind => ProbeDomain
    case LiveKind => LiveDomain
    case RealtimeKind => RealtimeDomain
  }

  lemma DomainsDiffer(bytes: seq<byte>, a: Kind, b: Kind)
    requires StartsWith(bytes, DomainOf(a)) && StartsWith(bytes, DomainOf(b))
    ensures a == b
  {
    DomainLengths();
    Apart(bytes, HintDomain, ProbeDomain, 22);
    Apart(bytes, HintDomain, LiveDomain, 15);
    Apart(bytes, ProbeDomain, LiveDomain, 15);
    Apart(bytes, HintDomain, RealtimeDomain, 8);
    Apart(bytes, ProbeDomain, RealtimeDomain, 8);
    Apart(bytes, LiveDomain, RealtimeDomain, 8);
  }

  /** Whether a byte string decodes as this kind, for any record codec, room and keys. */
  predicate DecodesAs<R, F>(k: Kind, bytes: seq<byte>, codec: RecordCodec<R>, env: RealtimeEnv<F>, room: seq<byte>) {
    match k
    case HintKind => ParseNotice(HintDomain, bytes).Some?
    case ProbeKind => ParseNotice(ProbeDomain, bytes).Some?
    case LiveKind => ParseLive(codec, bytes).Some?
    case RealtimeKind => ParseRealtime(env, room, bytes).Ok?
  }

  /** No byte string decodes as two kinds of gossip message. */
  lemma OneKindOnly<R, F>(bytes: seq<byte>, a: Kind, b: Kind, codec: RecordCodec<R>, env: RealtimeEnv<F>,
                          room: seq<byte>)
    requires DecodesAs(a, bytes, codec, env, room) && DecodesAs(b, bytes, codec, env, room)
    ensures a == b
  {
    assert StartsWith(bytes, DomainOf(a));
    assert StartsWith(bytes, DomainOf(b));
    DomainsDiffer(bytes, a, b);
  }

  // ---- Tickets --------------------------------------------------------------------------

  datatype TicketError = BadLength | BadFormat | BadGeneration | BadSupport | LengthMismatch | BadEndpoint

  datatype EndpointCodec<!E> = EndpointCodec(encode: E -> seq<byte>, decode: seq<byte> -> Option<E>)

  datatype Ticket<E> = Ticket(support: byte, topic: seq<byte>, owner: seq<byte>, endpoint: E)

  predicate SupportOk(bits: byte) {
    1 <= bits <= 3
  }

  /** The support a ticket may name is what some of the peer lanes, at least one, add up to. */
  lemma TicketSupportNamesLanes(bits: byte)
    ensures SupportOk(bits)
            <==> bits == PS.Tag(PS.Music) as int || bits == PS.Tag(PS.Extension) as int
                 || bits == PS.Tag(PS.Music) as int + PS.Tag(PS.Extension) as int
  {
  }

  ghost predicate TicketOk<E>(t: Ticket<E>) {
    SupportOk(t.support) && |t.topic| == 32 && |t.owner| == 32
  }

  /** The fixed 75 bytes. */
  function TicketHead(support: byte, topic: seq<byte>, owner: seq<byte>, length: nat): seq<byte> {
    Le(TICKET_FORMAT, 2) + Le(GENERATION, 4) + [support] + topic + owner + Le(length, 4)
  }

  function TicketWire<E>(codec: EndpointCodec<E>, t: Ticket<E>): seq<byte> {
    var endpoint := codec.encode(t.endpoint);
    TicketHead(t.support, t.topic, t.owner, |endpoint|) + endpoint
  }

  function ParseTicket<E>(codec: EndpointCodec<E>, bytes: seq<byte>): Result<Ticket<E>, TicketError> {
    if |bytes| < 75 || |bytes| > MAX_TICKET_BYTES then Err(BadLength)
    else if FromLe(bytes[0..2]) != TICKET_FORMAT then Err(BadFormat)
    else if FromLe(bytes[2..6]) != GENERATION then Err(BadGeneration)
    else if !SupportOk(bytes[6]) then Err(BadSupport)
    else if FromLe(bytes[71..75]) != |bytes| - 75 then Err(LengthMismatch)
    else
      var endpoint := codec.decode(bytes[75..]);
      if endpoint.None? then Err(BadEndpoint)
      else Ok(Ticket(bytes[6], bytes[7..39], bytes[39..71], endpoint.value))
  }

  method EncodeTicket<E>(codec: EndpointCodec<E>, t: Ticket<E>) returns (bytes: seq<byte>)
    ensures bytes == TicketWire(codec, t)
    ensures TicketOk(t) && codec.decode(codec.encode(t.endpoint)) == Some(t.endpoint) ==>
              (ParseTicket(codec, bytes) == Ok(t) <==> |bytes| <= MAX_TICKET_BYTES)
  {
    TicketFits(codec, t);
    var endpoint := codec.encode(t.endpoint);
    bytes := [];
    bytes := bytes + Le(TICKET_FORMAT, 2);
    bytes := bytes + Le(GENERATION, 4);
    bytes := bytes + [t.support];
    bytes := bytes + t.topic;
    bytes := bytes + t.owner;
    bytes := bytes + Le(|endpoint|, 4);
    bytes := bytes + endpoint;
  }

  /** The byte ranges of a ticket, before any number in them is read. */
  lemma TicketRanges(support: byte, topic: seq<byte>, owner: seq<byte>, endpoint: seq<byte>)
    requires |topic| == 32 && |owner| == 32
    ensures var b := TicketHead(support, topic, owner, |endpoint|) + endpoint;
            && |b| == 75 + |endpoint|
            && b[0..2] == Le(TICKET_FORMAT, 2) && b[2..6] == Le(GENERATION, 4) && b[6] == support
            && b[7..39] == topic && b[39..71] == owner && b[71..75] == Le(|endpoint|, 4) && b[75..] == endpoint
  {
    LeLength(TICKET_FORMAT, 2);
    LeLength(GENERATION, 4);
    LeLength(|endpoint|, 4);
    var front := Le(TICKET_FORMAT, 2) + Le(GENERATION, 4) + [support] + topic;
    var tail := owner + Le(|endpoint|, 4) + endpoint + [];
    Parts(Le(TICKET_FORMAT, 2), Le(GENERATION, 4), [support], topic);
    Parts(owner, Le(|endpoint|, 4), endpoint, []);
    Regroup(front, owner, Le(|endpoint|, 4), endpoint, []);
    assert tail[36..] == endpoint;
    assert (front + tail)[6] == front[6..7][0];
    Behind(front, tail, 0, 32);
    Behind(front, tail, 32, 36);
    Behind(front, tail, 36, |tail|);
    Slices(front, tail, 0, 2);
    Slices(front, tail, 2, 6);
    Slices(front, tail, 7, 39);
  }

  lemma TicketLayout(support: byte, topic: seq<byte>, owner: seq<byte>, endpoint: seq<byte>)
    requires |topic| == 32 && |owner| == 32 && |endpoint| < 0x1_0000_0000
    ensures var b := TicketHead(support, topic, owner, |endpoint|) + endpoint;
            && |b| == 75 + |endpoint|
            && FromLe(b[0..2]) == TICKET_FORMAT && FromLe(b[2..6]) == GENERATION && b[6] == support
            && b[7..39] == topic && b[39..71] == owner && FromLe(b[71..75]) == |endpoint| && b[75..] == endpoint
  {
    Widths();
    TicketRanges(support, topic, owner, endpoint);
    LeRoundTrip(TICKET_FORMAT, 2);
    LeRoundTrip(GENERATION, 4);
    LeRoundTrip(|endpoint|, 4);
  }

  /**
   Given an endpoint codec that undoes itself, a ticket survives the wire exactly when it
   fits in 64 KiB; a longer one is encoded all the same and refused on reading.
   */
  lemma TicketRoundTrip<E>(codec: EndpointCodec<E>, t: Ticket<E>)
    requires TicketOk(t) && codec.decode(codec.encode(t.endpoint)) == Some(t.endpoint)
    requires |codec.encode(t.endpoint)| < 0x1_0000_0000
    ensures ParseTicket(codec, TicketWire(codec, t))
         == if |codec.encode(t.endpoint)| <= MAX_TICKET_BYTES - 75 then Ok(t) else Err(BadLength)
  {
    TicketLayout(t.support, t.topic, t.owner, codec.encode(t.endpoint));
  }

  /** What is encoded is accepted exactly when it is short enough. */
  lemma TicketFits<E>(codec: EndpointCodec<E>, t: Ticket<E>)
    ensures TicketOk(t) && codec.decode(codec.encode(t.endpoint)) == Some(t.endpoint) ==>
              (ParseTicket(codec, TicketWire(codec, t)) == Ok(t) <==> |TicketWire(codec, t)| <= MAX_TICKET_BYTES)
  {
    if TicketOk(t) && codec.decode(codec.encode(t.endpoint)) == Some(t.endpoint) {
      if |codec.encode(t.endpoint)| < 0x1_0000_0000 {
        TicketRoundTrip(codec, t);
        TicketLayout(t.support, t.topic, t.owner, codec.encode(t.endpoint));
      }
    }
  }

  /** An accepted ticket has exactly one spelling of everything but its endpoint. */
  lemma AcceptedTicketHead<E>(codec: EndpointCodec<E>, bytes: seq<byte>)
    requires ParseTicket(codec, bytes).Ok?
    ensures var t := ParseTicket(codec, bytes).value;
            && TicketOk(t) && codec.decode(bytes[75..]) == Some(t.endpoint)
            && bytes == TicketHead(t.support, t.topic, t.owner, |bytes| - 75) + bytes[75..]
  {
    LeInverse(bytes[0..2]);
    LeInverse(bytes[2..6]);
    LeInverse(bytes[71..75]);
    assert bytes == bytes[0..2] + bytes[2..6] + [bytes[6]] + bytes[7..39] + bytes[39..71] + bytes[71..75] + bytes[75..];
  }
}
