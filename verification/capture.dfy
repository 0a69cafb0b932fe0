/** The capture pipeline: the audio worklet's fixed 2048-slot accumulation
    buffer (`processChunk` / `sendAndClearBuffer`) and the `AudioRecorder`
    that gates, stops and mutes it. */
module Capture {
  import opened Wrappers
  import opened Pcm

  /** Capacity of the worklet's `Int16Array` buffer, and so the length of
      every outbound audio frame. */
  const FrameSize: nat := 2048

  /** The filled prefix `buffer[0 .. bufferWriteIndex)` of the worklet's
      buffer; the write index is its length and stays below the capacity. */
  type Pending = s: seq<Int16> | |s| < FrameSize

  /** What one call of `processChunk` leaves behind: the new filled prefix
      and the frames posted to the main thread, in posting order. */
  datatype Fed = Fed(rest: Pending, frames: seq<seq<Int16>>)

  /** The frames laid end to end. */
  function Flatten(frames: seq<seq<Int16>>): (s: seq<Int16>)
  {
    if frames == [] then [] else frames[0] + Flatten(frames[1..])
  }

  /** Every posted frame holds exactly `FrameSize` samples. */
  predicate AllFull(frames: seq<seq<Int16>>)
  {
    forall k :: 0 <= k < |frames| ==> |frames[k]| == FrameSize
  }

  /** The worklet's per-sample loop over one input block, on the samples
      already quantised: each is written at the write index; when the
      buffer is full its whole content is posted as a frame and the index
      returns to 0. */
  function Feed(pending: Pending, qs: seq<Int16>): Fed
    decreases |qs|
  {
    if qs == [] then Fed(pending, [])
    else if |pending| + 1 == FrameSize then
      var r := Feed([], qs[1..]);
      Fed(r.rest, [pending + [qs[0]]] + r.frames)
    else
      Feed(pending + [qs[0]], qs[1..])
  }

  /** Every frame the worklet posts is full, and nothing is lost or
      reordered: the posted frames followed by the retained prefix are the
      old prefix followed by the new samples. */
  lemma {:induction false} FeedConserves(pending: Pending, qs: seq<Int16>)
    ensures AllFull(Feed(pending, qs).frames)
    ensures Flatten(Feed(pending, qs).frames) + Feed(pending, qs).rest == pending + qs
    decreases |qs|
  {
    if qs != [] {
      var q := qs[0];
      assert (pending + [q]) + qs[1..] == pending + qs;
      if |pending| + 1 == FrameSize {
        var r := Feed([], qs[1..]);
        var f := pending + [q];
        assert Feed(pending, qs) == Fed(r.rest, [f] + r.frames);
        FeedConserves([], qs[1..]);
        FlushConserves(f, r.frames, r.rest, qs[1..]);
      } else {
        assert Feed(pending, qs) == Feed(pending + [q], qs[1..]);
        FeedConserves(pending + [q], qs[1..]);
      }
    }
  }

  /** Posting a full buffer in front of frames that conserve the rest of
      the stream conserves the whole stream. */
  lemma FlushConserves(f: seq<Int16>, frames: seq<seq<Int16>>, rest: seq<Int16>, tail: seq<Int16>)
    requires |f| == FrameSize && AllFull(frames)
    requires Flatten(frames) + rest == [] + tail
    ensures AllFull([f] + frames)
    ensures Flatten([f] + frames) + rest == f + tail
  {
    FlattenCons(f, frames);
    assert Flatten([f] + frames) + rest == f + (Flatten(frames) + rest);
  }

  /** Flattening a frame list that starts with `f`. */
  lemma FlattenCons(f: seq<Int16>, frames: seq<seq<Int16>>)
    ensures Flatten([f] + frames) == f + Flatten(frames)
  {
    assert ([f] + frames)[0] == f;
    assert ([f] + frames)[1..] == frames;
  }

  /** The posted frames followed by the retained prefix fix both uniquely:
      there is exactly one way to cut the quantised stream into full frames
      and a short tail. */
  lemma {:induction false} CutIsUnique(s: seq<Int16>, frames: seq<seq<Int16>>, rest: seq<Int16>)
    requires AllFull(frames) && |rest| < FrameSize
    requires Flatten(frames) + rest == s
    ensures |frames| == |s| / FrameSize && rest == s[|frames| * FrameSize..]
    ensures forall k :: 0 <= k < |frames| ==> frames[k] == s[k * FrameSize..(k + 1) * FrameSize]
    decreases |frames|
  {
    if frames == [] {
      assert s == rest;
    } else {
      var tail := s[FrameSize..];
      assert s == frames[0] + (Flatten(frames[1..]) + rest);
      assert Flatten(frames[1..]) + rest == tail;
      CutIsUnique(tail, frames[1..], rest);
      forall k | 0 <= k < |frames|
        ensures frames[k] == s[k * FrameSize..(k + 1) * FrameSize]
      {
        if k > 0 {
          assert frames[k] == frames[1..][k - 1];
          assert tail[(k - 1) * FrameSize..k * FrameSize] == s[k * FrameSize..(k + 1) * FrameSize];
        }
      }
    }
  }

  /** Frame k posted by the worklet is exactly samples k*2048 .. (k+1)*2048
      of the buffered prefix followed by the new samples, and the retained
      prefix is what follows the last full frame. */
  lemma FeedContents(pending: Pending, qs: seq<Int16>)
    ensures |Feed(pending, qs).frames| == (|pending| + |qs|) / FrameSize
    ensures |Feed(pending, qs).rest| == (|pending| + |qs|) % FrameSize
    ensures var r := Feed(pending, qs);
      && r.rest == (pending + qs)[|r.frames| * FrameSize..]
      && forall k :: 0 <= k < |r.frames| ==>
           r.frames[k] == (pending + qs)[k * FrameSize..(k + 1) * FrameSize]
  {
    var r := Feed(pending, qs);
    FeedConserves(pending, qs);
    CutIsUnique(pending + qs, r.frames, r.rest);
  }

  /** Feeding a stream in any split into blocks posts the same frames and
      leaves the same prefix as feeding it in one block: frame boundaries
      do not depend on the render-quantum boundaries. */
  lemma {:induction false} FeedSplit(pending: Pending, qs: seq<Int16>, rs: seq<Int16>)
    ensures Feed(pending, qs + rs).rest == Feed(Feed(pending, qs).rest, rs).rest
    ensures Feed(pending, qs + rs).frames == Feed(pending, qs).frames + Feed(Feed(pending, qs).rest, rs).frames
    decreases |qs|
  {
    if qs == [] {
      assert qs + rs == rs;
    } else {
      var q := qs[0];
      assert (qs + rs)[0] == q;
      assert (qs + rs)[1..] == qs[1..] + rs;
      if |pending| + 1 == FrameSize {
        FeedSplit([], qs[1..], rs);
      } else {
        FeedSplit(pending + [q], qs[1..], rs);
      }
    }
  }

  /** 5000 samples fed to an empty buffer post two frames (4096 samples)
      and keep 904. */
  lemma FiveThousandSamples(xs: seq<real>)
    requires |xs| == 5000
    ensures |Feed([], QuantizeAll(xs)).frames| == 2
    ensures |Flatten(Feed([], QuantizeAll(xs)).frames)| == 4096
    ensures |Feed([], QuantizeAll(xs)).rest| == 904
  {
    var r := Feed([], QuantizeAll(xs));
    FeedConserves([], QuantizeAll(xs));
    FeedContents([], QuantizeAll(xs));
    assert |Flatten(r.frames) + r.rest| == 5000;
  }

  /** The worklet itself: a fixed `Int16Array(2048)` written at a write
      index, posting `buffer.slice(0, bufferWriteIndex)` whenever the index
      reaches the capacity. */
  method ProcessChunk(pending: Pending, xs: seq<real>) returns (rest: Pending, frames: seq<seq<Int16>>)
    ensures Fed(rest, frames) == Feed(pending, QuantizeAll(xs))
    ensures |frames| == (|pending| + |xs|) / FrameSize
    ensures AllFull(frames)
    ensures Flatten(frames) + rest == pending + QuantizeAll(xs)
  {
    ghost var qs := QuantizeAll(xs);
    var buffer := new Int16[FrameSize];
    forall i | 0 <= i < |pending| {
      buffer[i] := pending[i];
    }
    var writeIndex := |pending|;
    frames := [];
    assert buffer[..writeIndex] == pending;
    assert qs[0..] == qs;
    for i := 0 to |xs|
      invariant 0 <= writeIndex < FrameSize
      invariant Feed(pending, qs).rest == Feed(buffer[..writeIndex], qs[i..]).rest
      invariant Feed(pending, qs).frames == frames + Feed(buffer[..writeIndex], qs[i..]).frames
    {
      ghost var before := buffer[..writeIndex];
      var q := Quantize(xs[i]);
      assert qs[i..][0] == q && qs[i..][1..] == qs[i + 1..];
      buffer[writeIndex] := q;
      writeIndex := writeIndex + 1;
      assert buffer[..writeIndex] == before + [q];
      if writeIndex >= FrameSize {
        frames := frames + [buffer[..writeIndex]];
        writeIndex := 0;
      }
    }
    assert qs[|xs|..] == [];
    rest := buffer[..writeIndex];
    FeedConserves(pending, qs);
    FeedContents(pending, qs);
  }

  /** The recorder's track, when a microphone stream has been acquired:
      whether the track is enabled (unmuted). */
  datatype Recorder = Recorder(recording: bool, track: Option<bool>, pending: Pending)

  /** Permission or device failure of `getUserMedia`. */
  datatype DeviceError = DeviceUnavailable

  /** A fresh recorder: no stream, not recording, empty worklet buffer. */
  function NewRecorder(): Recorder
  {
    Recorder(false, None, [])
  }

  /** A recorder that is not recording has no worklet running, so nothing
      is buffered. */
  predicate Valid(r: Recorder)
  {
    !r.recording ==> r.pending == []
  }

  /** `start`: acquire the microphone (enabled track), build a fresh worklet
      with an empty buffer and open the recording gate. A denied device
      rejects and leaves the recorder as it was. */
  function Start(r: Recorder, granted: bool): (res: Result<Recorder, DeviceError>)
    ensures !granted <==> res.Failure?
    ensures res.Success? ==> res.value.recording && res.value.track == Some(true) && res.value.pending == []
  {
    if granted then Success(Recorder(true, Some(true), [])) else Failure(DeviceUnavailable)
  }

  /** `stop`: a no-op unless recording; otherwise close the gate and tear
      down the worklet, silently dropping its partial buffer. The stream
      handle (and its track state) is kept. */
  function Stop(r: Recorder): (r': Recorder)
    ensures !r'.recording && r'.track == r.track
    ensures r.recording ==> r'.pending == []
    ensures Valid(r) ==> Valid(r')
    ensures Valid(r) && !r.recording ==> r' == r
  {
    if !r.recording then r else r.(recording := false, pending := [])
  }

  /** `toggleMic`: flip the enabled state of the stream's audio track and
      return the new state; without a stream, report `false` and change
      nothing. */
  function ToggleMic(r: Recorder): (res: (Recorder, bool))
    ensures r.track.None? ==> res == (r, false)
    ensures r.track.Some? ==> res.0.track == Some(res.1) && res.1 == !r.track.value
    ensures res.0.recording == r.recording && res.0.pending == r.pending
  {
    match r.track
    case None => (r, false)
    case Some(enabled) => (r.(track := Some(!enabled)), !enabled)
  }

  /** One render quantum reaching the worklet: while recording, its samples
      are accumulated and every completed frame is delivered (the `chunk`
      message passes the recording gate); otherwise nothing happens. */
  function OnBlock(r: Recorder, xs: seq<real>): (res: (Recorder, seq<seq<Int16>>))
    ensures !r.recording ==> res == (r, [])
    ensures r.recording ==> res.0.recording && res.0.track == r.track
    ensures r.recording ==> Flatten(res.1) + res.0.pending == r.pending + QuantizeAll(xs)
    ensures AllFull(res.1) && |res.1| <= (|r.pending| + |xs|) / FrameSize
  {
    if !r.recording then (r, [])
    else
      var fed := Feed(r.pending, QuantizeAll(xs));
      FeedConserves(r.pending, QuantizeAll(xs));
      FeedContents(r.pending, QuantizeAll(xs));
      (r.(pending := fed.rest), fed.frames)
  }

  /** Stopping twice is stopping once. */
  lemma StopIdempotent(r: Recorder)
    ensures Stop(Stop(r)) == Stop(r)
  {
  }

  /** Muting and unmuting restores the track. */
  lemma ToggleTwice(r: Recorder)
    ensures ToggleMic(ToggleMic(r).0).0 == r
  {
  }

  /** After a stop and a restart, the samples buffered before the stop are
      gone: the next frame consists only of samples captured after the
      restart. */
  lemma RestartDropsPartialBuffer(r: Recorder, xs: seq<real>)
    requires Valid(r) && r.recording
    ensures Start(Stop(r), true).Success?
    ensures OnBlock(Start(Stop(r), true).value, xs).0.pending == Feed([], QuantizeAll(xs)).rest
    ensures OnBlock(Start(Stop(r), true).value, xs).1 == Feed([], QuantizeAll(xs)).frames
  {
  }
}
