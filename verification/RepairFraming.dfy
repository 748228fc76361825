/** Length-prefixed repair frames over a byte stream that may deliver in arbitrary pieces. */
module RepairFraming {
  import opened Prelude
  import opened Bytes

  datatype RepairError = EndedInsideLength | EndedInsideFrame | FrameTooLarge(actual: nat, max: nat) | CarrierFailed

  /** Four bytes of big-endian length, then the payload. */
  function FrameWire(frame: seq<byte>): seq<byte> {
    Be(|frame|, 4) + frame
  }

  function FramesWire(frames: seq<seq<byte>>): seq<byte> {
    if frames == [] then [] else FrameWire(frames[0]) + FramesWire(frames[1..])
  }

  /** What reading one frame from `data` gives; a clean end is no frame. */
  function ParseFrame(data: seq<byte>, max: nat): Result<Option<seq<byte>>, RepairError> {
    if data == [] then Ok(None)
    else if |data| < 4 then Err(EndedInsideLength)
    else
      var length := FromBe(data[..4]);
      if length > max then Err(FrameTooLarge(length, max))
      else if |data| - 4 < length then Err(EndedInsideFrame)
      else Ok(Some(data[4..4 + length]))
  }

  /** Reading frames until the stream ends or fails: the frames, and whether it ended cleanly. */
  function ParseFrames(data: seq<byte>, max: nat): (seq<seq<byte>>, bool)
    decreases |data|
  {
    var r := ParseFrame(data, max);
    if r.Err? then ([], false)
    else if r.value.None? then ([], true)
    else
      var (rest, clean) := ParseFrames(data[4 + |r.value.value|..], max);
      ([r.value.value] + rest, clean)
  }

  ghost predicate Fit(frames: seq<seq<byte>>, max: nat) {
    forall i :: 0 <= i < |frames| ==> |frames[i]| <= max
  }

  lemma ReadBackOne(frame: seq<byte>, rest: seq<byte>, max: nat)
    requires |frame| <= max < Pow256(4)
    ensures |FrameWire(frame)| == 4 + |frame|
    ensures ParseFrame(FrameWire(frame) + rest, max) == Ok(Some(frame))
    ensures (FrameWire(frame) + rest)[4 + |frame|..] == rest
  {
    BeRoundTrip(|frame|, 4);
    var data := FrameWire(frame) + rest;
    assert data[..4] == Be(|frame|, 4);
    assert data[4..4 + |frame|] == frame;
  }

  /** A frame cut anywhere inside, prefix or payload, is an error and never a shorter frame. */
  lemma CutFrameIsAnError(frame: seq<byte>, k: nat, max: nat)
    requires |frame| <= max < Pow256(4) && 0 < k < |FrameWire(frame)|
    ensures ParseFrame(FrameWire(frame)[..k], max) == Err(if k < 4 then EndedInsideLength else EndedInsideFrame)
  {
    BeRoundTrip(|frame|, 4);
    if k >= 4 {
      assert FrameWire(frame)[..k][..4] == Be(|frame|, 4);
    }
  }

  /** Where in the byte stream the first `i` frames end. */
  function Boundary(frames: seq<seq<byte>>, i: nat): nat
    requires i <= |frames|
  {
    |FramesWire(frames[..i])|
  }

  lemma {:induction false} WireAppend(a: seq<seq<byte>>, b: seq<seq<byte>>)
    ensures FramesWire(a + b) == FramesWire(a) + FramesWire(b)
  {
    if a == [] {
      assert a + b == b;
    } else {
      assert (a + b)[1..] == a[1..] + b;
      WireAppend(a[1..], b);
    }
  }

  lemma ParseStep(data: seq<byte>, max: nat, frame: seq<byte>, rest: seq<byte>)
    requires ParseFrame(data, max) == Ok(Some(frame)) && data[4 + |frame|..] == rest
    ensures ParseFrames(data, max) == Prepend([frame], ParseFrames(rest, max))
  {
  }

  /** Frames read before the rest of a stream was. */
  function Prepend(frames: seq<seq<byte>>, r: (seq<seq<byte>>, bool)): (seq<seq<byte>>, bool) {
    (frames + r.0, r.1)
  }

  lemma PrependTwice(frames: seq<seq<byte>>, r: (seq<seq<byte>>, bool))
    requires frames != []
    ensures Prepend([frames[0]], Prepend(frames[1..], r)) == Prepend(frames, r)
  {
    assert [frames[0]] + (frames[1..] + r.0) == frames + r.0;
  }

  lemma ReadBackStep(frame: seq<byte>, tail: seq<byte>, max: nat)
    requires |frame| <= max < Pow256(4)
    ensures ParseFrames(FrameWire(frame) + tail, max) == Prepend([frame], ParseFrames(tail, max))
  {
    ReadBackOne(frame, tail, max);
    ParseStep(FrameWire(frame) + tail, max, frame, tail);
  }

  lemma WireOneMore(frames: seq<seq<byte>>, i: nat)
    requires i < |frames|
    ensures FramesWire(frames[..i + 1]) == FramesWire(frames[..i]) + FrameWire(frames[i])
  {
    WireAppend(frames[..i], [frames[i]]);
    assert frames[..i + 1] == frames[..i] + [frames[i]];
    var one := [frames[i]];
    assert |one[1..]| == 0;
    assert FramesWire(one) == FrameWire(frames[i]);
  }

  /** Every sequence of frames that fit is read back exactly, and whatever follows is read next. */
  lemma {:induction false} FramesAreReadBack(frames: seq<seq<byte>>, rest: seq<byte>, max: nat)
    requires Fit(frames, max) && max < Pow256(4)
    ensures ParseFrames(FramesWire(frames) + rest, max) == Prepend(frames, ParseFrames(rest, max))
    decreases |frames|
  {
    if frames == [] {
      assert FramesWire(frames) + rest == rest;
      assert frames + ParseFrames(rest, max).0 == ParseFrames(rest, max).0;
    } else {
      var tail := FramesWire(frames[1..]) + rest;
      assert FramesWire(frames) + rest == FrameWire(frames[0]) + tail;
      FramesAreReadBack(frames[1..], rest, max);
      ReadBackStep(frames[0], tail, max);
      PrependTwice(frames, ParseFrames(rest, max));
    }
  }

  /**
   A written stream cut after any number of bytes yields exactly the frames that were
   complete, and ends cleanly exactly when the cut falls between two frames.
   */
  lemma CutStreamYieldsWholeFrames(frames: seq<seq<byte>>, i: nat, k: nat, max: nat)
    requires Fit(frames, max) && max < Pow256(4)
    requires i < |frames| && k < |FrameWire(frames[i])|
    ensures Boundary(frames, i) + k <= |FramesWire(frames)|
    ensures ParseFrames(FramesWire(frames)[..Boundary(frames, i) + k], max) == (frames[..i], k == 0)
  {
    assert frames == frames[..i] + frames[i..];
    WireAppend(frames[..i], frames[i..]);
    var part := FrameWire(frames[i])[..k];
    assert FramesWire(frames)[..Boundary(frames, i) + k] == FramesWire(frames[..i]) + part;
    if k > 0 {
      CutFrameIsAnError(frames[i], k, max);
    }
    FramesAreReadBack(frames[..i], part, max);
    assert frames[..i] + [] == frames[..i];
  }

  /** Anything read as a frame was written as one: no two encodings of the same frame. */
  lemma ReadFramesWereWritten(data: seq<byte>, max: nat)
    requires ParseFrame(data, max).Ok? && ParseFrame(data, max).value.Some?
    ensures var frame := ParseFrame(data, max).value.value;
            |frame| <= max && StartsWith(data, FrameWire(frame))
  {
    var frame := ParseFrame(data, max).value.value;
    BeInverse(data[..4]);
    assert data[..4 + |frame|] == data[..4] + data[4..4 + |frame|];
  }

  // ---- The stream adapters --------------------------------------------------------

  /** The send half: bytes handed to the carrier, in order. */
  class SendStream {
    var sent: seq<byte>

    constructor ()
      ensures sent == []
    {
      sent := [];
    }

    method WriteFrame(bytes: seq<byte>, max: nat) returns (r: Result<(), RepairError>)
      modifies this
      ensures r.Ok? <==> |bytes| <= max
      ensures r.Ok? ==> sent == old(sent) + FrameWire(bytes)
      ensures r.Err? ==> sent == old(sent) && r.error == FrameTooLarge(|bytes|, max)
    {
      if |bytes| > max {
        return Err(FrameTooLarge(|bytes|, max));
      }
      sent := sent + Be(|bytes|, 4);
      sent := sent + bytes;
      return Ok(());
    }

    /** Frames go out in order up to the first that does not fit. */
    method WriteFrames(frames: seq<seq<byte>>, max: nat) returns (r: Result<(), RepairError>, written: nat)
      modifies this
      ensures written <= |frames| && Fit(frames[..written], max)
      ensures sent == old(sent) + FramesWire(frames[..written])
      ensures r.Ok? <==> written == |frames|
      ensures r.Err? ==> |frames[written]| > max
    {
      written := 0;
      r := Ok(());
      while written < |frames| && r.Ok?
        invariant written <= |frames| && Fit(frames[..written], max)
        invariant sent == old(sent) + FramesWire(frames[..written])
        invariant r.Err? ==> written < |frames| && |frames[written]| > max
        decreases |frames| - written, r.Ok?
      {
        r := WriteFrame(frames[written], max);
        if r.Ok? {
          OneMoreSent(old(sent), frames, written, max);
          written := written + 1;
        }
      }
    }
  }

  /** One more fitting frame behind those already sent. */
  lemma OneMoreSent(before: seq<byte>, frames: seq<seq<byte>>, k: nat, max: nat)
    requires k < |frames| && Fit(frames[..k], max) && |frames[k]| <= max
    ensures before + FramesWire(frames[..k]) + FrameWire(frames[k]) == before + FramesWire(frames[..k + 1])
    ensures Fit(frames[..k + 1], max)
  {
    WireOneMore(frames, k);
    Regrouped(before, FramesWire(frames[..k]), FrameWire(frames[k]));
  }

  lemma Regrouped(a: seq<byte>, b: seq<byte>, c: seq<byte>)
    ensures a + b + c == a + (b + c)
  {
  }

  /** The receive half: what is still to come, delivered in pieces of the carrier's choosing. */
  class RecvStream {
    var data: seq<byte>

    constructor (bytes: seq<byte>)
      ensures data == bytes
    {
      data := bytes;
    }

    /** At least one byte unless the stream ended, at most `wanted`; `piece` is the carrier's whim. */
    method Read(wanted: nat, piece: nat) returns (r: Option<seq<byte>>)
      requires wanted > 0
      modifies this
      ensures r.None? <==> old(data) == []
      ensures r.None? ==> data == old(data)
      ensures r.Some? ==> 0 < |r.value| <= wanted && old(data) == r.value + data
    {
      if data == [] {
        return None;
      }
      var k := if piece == 0 then 1 else if piece < wanted then piece else wanted;
      k := if k < |data| then k else |data|;
      r := Some(data[..k]);
      data := data[k..];
    }

    /** The four length bytes, in whatever pieces they come; None if the stream had ended before them. */
    method ReadLength(pieces: nat -> nat, broken: nat -> bool)
      returns (r: Result<Option<seq<byte>>, RepairError>, turns: nat)
      modifies this
      ensures match r
              case Ok(None) => old(data) == []
              case Ok(Some(length)) => |length| == 4 && old(data) == length + data
              case Err(EndedInsideLength) => 0 < |old(data)| < 4
              case Err(e) => e == CarrierFailed
      ensures r == Err(CarrierFailed) <==> turns > 0 && broken(turns - 1)
      ensures forall t :: 0 <= t < turns - 1 ==> !broken(t)
    {
      var length: seq<byte> := [];
      turns := 0;
      while |length| < 4
        invariant |length| <= 4 && old(data) == length + data
        invariant forall t :: 0 <= t < turns ==> !broken(t)
        decreases 4 - |length|
      {
        turns := turns + 1;
        if broken(turns - 1) {
          return Err(CarrierFailed), turns;
        }
        var got := Read(4 - |length|, pieces(turns - 1));
        if got.None? {
          return if |length| == 0 then Ok(None) else Err(EndedInsideLength), turns;
        }
        length := length + got.value;
      }
      r := Ok(Some(length));
    }

    /**
     Reads one frame, `broken` saying which reads of the carrier fail. `turns` counts the
     reads made, the body counting as one.
     */
    method ReadFrame(max: nat, pieces: nat -> nat, broken: nat -> bool)
      returns (r: Result<Option<seq<byte>>, RepairError>, turns: nat)
      modifies this
      ensures r != Err(CarrierFailed) ==> r == ParseFrame(old(data), max)
      ensures r == Err(CarrierFailed) <==> turns > 0 && broken(turns - 1)
      ensures forall t :: 0 <= t < turns - 1 ==> !broken(t)
      ensures r.Ok? && r.value.Some? ==> old(data) == old(data)[..4 + |r.value.value|] + data
    {
      var length;
      length, turns := ReadLength(pieces, broken);
      if length.Err? || length.value.None? {
        return length, turns;
      }
      assert old(data)[..4] == length.value.value && data == old(data)[4..];
      var n := FromBe(length.value.value);
      if n > max {
        return Err(FrameTooLarge(n, max)), turns;
      }
      if n > 0 {
        turns := turns + 1;
        if broken(turns - 1) {
          return Err(CarrierFailed), turns;
        }
      }
      if |data| < n {
        return Err(EndedInsideFrame), turns;
      }
      r := Ok(Some(data[..n]));
      assert old(data)[4..4 + n] == data[..n];
      data := data[n..];
    }
  }
}
