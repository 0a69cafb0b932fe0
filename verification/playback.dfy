/** The playback scheduler (`AudioStreamer`): inbound PCM16 chunks are
    decoded into float segments, queued in arrival order and handed to the
    audio sink back to back, using a `scheduledTime` cursor on the sink's
    clock. The sink clock is a parameter and each `onended` callback is an
    explicit event. */
module Playback {
  import opened Pcm

  /** Playback sample rate in Hz. */
  type Rate = r: int | r > 0 witness 24000

  /** What `streamAudio` is given: a `Uint8Array` over a whole buffer, or
      any other value. */
  datatype Chunk = Uint8(bytes: seq<Byte>) | NotUint8

  /** An `AudioBufferSourceNode` started on the sink at `start`. */
  datatype Source = Source(start: real, samples: seq<real>)

  /** What one scheduling step did: nothing, started a source, or threw
      (`createBuffer` rejects a zero-length buffer after the segment was
      already dequeued). */
  datatype Step = Idle | Started(source: Source) | Threw

  /** `inFlight` counts started sources whose `onended` has not fired yet. */
  datatype Streamer = Streamer(
    rate: Rate,
    initialized: bool,
    queue: seq<seq<real>>,
    playing: bool,
    cursor: real,
    inFlight: nat)

  datatype Scheduled = Scheduled(streamer: Streamer, step: Step)

  function NewStreamer(rate: Rate): Streamer
  {
    Streamer(rate, false, [], false, 0.0, 0)
  }

  /** `initialize`: the sink is resumed (not modelled) and the streamer
      starts accepting chunks. */
  function Initialize(s: Streamer): (r: Streamer)
    ensures r.initialized && r.queue == s.queue && r.cursor == s.cursor && r.playing == s.playing
  {
    s.(initialized := true)
  }

  function Max(a: real, b: real): real
  {
    if a >= b then a else b
  }

  /** Length of a segment on the sink's clock (`buffer.duration`). */
  function Duration(samples: seq<real>, rate: Rate): (d: real)
    ensures d >= 0.0
    ensures samples != [] ==> d > 0.0
  {
    |samples| as real / rate as real
  }

  /** Total length of segments played one after another. */
  function TotalDuration(segments: seq<seq<real>>, rate: Rate): (d: real)
    ensures d >= 0.0
  {
    if segments == [] then 0.0 else Duration(segments[0], rate) + TotalDuration(segments[1..], rate)
  }

  /** The segments a step handed to the sink. */
  function Handed(step: Step): seq<seq<real>>
  {
    if step.Started? then [step.source.samples] else []
  }

  /** The scheduler's invariant: every queued segment has samples, the queue
      only holds segments while a chain is playing, and a playing chain
      always has a started source whose end will resume it (so a valid
      streamer is never `Stalled`). */
  predicate Valid(s: Streamer)
  {
    && (forall k :: 0 <= k < |s.queue| ==> s.queue[k] != [])
    && (!s.playing ==> s.queue == [])
    && (s.playing ==> s.inFlight > 0)
  }

  /** `scheduleNextBuffer` at sink time `now`. */
  function ScheduleNext(s: Streamer, now: real): (r: Scheduled)
    ensures s.queue == [] ==> r == Scheduled(s.(playing := false), Idle)
    ensures s.queue != [] ==> r.streamer.playing && r.streamer.queue == s.queue[1..]
    ensures r.step.Threw? <==> s.queue != [] && s.queue[0] == []
    ensures r.step.Started? <==> s.queue != [] && s.queue[0] != []
    ensures r.step.Started? ==>
      && r.step.source.samples == s.queue[0]
      && r.step.source.start >= now
      && r.step.source.start >= s.cursor
      && (r.step.source.start == now || r.step.source.start == s.cursor)
      && r.streamer.cursor == r.step.source.start + Duration(s.queue[0], s.rate)
      && r.streamer.inFlight == s.inFlight + 1
    ensures !r.step.Started? ==> r.streamer.cursor == s.cursor && r.streamer.inFlight == s.inFlight
    ensures !r.step.Threw? ==> Handed(r.step) + r.streamer.queue == s.queue
    ensures r.streamer.cursor >= s.cursor
    ensures r.streamer.rate == s.rate && r.streamer.initialized == s.initialized
  {
    if s.queue == [] then Scheduled(s.(playing := false), Idle)
    else
      var segment := s.queue[0];
      var dequeued := s.(playing := true, queue := s.queue[1..]);
      if segment == [] then Scheduled(dequeued, Threw)
      else
        var start := Max(s.cursor, now);
        Scheduled(
          dequeued.(cursor := start + Duration(segment, s.rate), inFlight := s.inFlight + 1),
          Started(Source(start, segment)))
  }

  /** `streamAudio` exactly as the source writes it: an empty or one-byte
      chunk is queued as a zero-length segment too. */
  function StreamAudioAsWritten(s: Streamer, chunk: Chunk, now: real): (r: Scheduled)
    ensures !s.initialized || chunk.NotUint8? ==> r == Scheduled(s, Idle)
    ensures s.initialized && chunk.Uint8? && !r.step.Threw? ==>
      Handed(r.step) + r.streamer.queue == s.queue + [DecodeSamples(chunk.bytes)]
    ensures Valid(s) ==>
      (r.step.Threw? <==> s.initialized && chunk.Uint8? && |chunk.bytes| < 2 && !s.playing)
    ensures r.step.Threw? ==> r.streamer.playing && r.streamer.inFlight == s.inFlight
    ensures r.streamer.cursor >= s.cursor
  {
    if !s.initialized || chunk.NotUint8? then Scheduled(s, Idle)
    else
      var queued := s.(queue := s.queue + [DecodeSamples(chunk.bytes)]);
      if !s.playing then ScheduleNext(queued, now) else Scheduled(queued, Idle)
  }

  /** `streamAudio` with the zero-length segment dropped instead of queued
      (the corrected behaviour used by the rest of the model). */
  function StreamAudio(s: Streamer, chunk: Chunk, now: real): (r: Scheduled)
    ensures !s.initialized || chunk.NotUint8? || |chunk.bytes| < 2 ==> r == Scheduled(s, Idle)
    ensures s.initialized && chunk.Uint8? && |chunk.bytes| >= 2 && Valid(s) ==>
      Handed(r.step) + r.streamer.queue == s.queue + [DecodeSamples(chunk.bytes)]
    ensures s.initialized && chunk.Uint8? && |chunk.bytes| >= 2 && Valid(s) && !s.playing ==>
      r.step == Started(Source(Max(s.cursor, now), DecodeSamples(chunk.bytes)))
    ensures Valid(s) && s.playing ==> r.step == Idle
    ensures Valid(s) ==> Valid(r.streamer) && !r.step.Threw? && !Stalled(r.streamer)
    ensures r.streamer.cursor >= s.cursor
  {
    if chunk.Uint8? && |chunk.bytes| < 2 then Scheduled(s, Idle)
    else StreamAudioAsWritten(s, chunk, now)
  }

  /** `stop`: drop every queued segment and clear `isPlaying`; sources
      already started, and the cursor, are left alone. */
  function Stop(s: Streamer): (r: Streamer)
    ensures r.queue == [] && !r.playing
    ensures r.cursor == s.cursor && r.inFlight == s.inFlight
    ensures r.initialized == s.initialized && r.rate == s.rate
    ensures Valid(r)
  {
    s.(queue := [], playing := false)
  }

  /** A started source's `onended` firing at sink time `now`: it resumes the
      scheduling loop. With no source in flight there is nothing to end. */
  function Ended(s: Streamer, now: real): (r: Scheduled)
    ensures s.inFlight == 0 ==> r == Scheduled(s, Idle)
    ensures s.inFlight > 0 && !r.step.Threw? ==> Handed(r.step) + r.streamer.queue == s.queue
    ensures Valid(s) ==> Valid(r.streamer) && !r.step.Threw?
    ensures r.streamer.cursor >= s.cursor
  {
    if s.inFlight == 0 then Scheduled(s, Idle)
    else ScheduleNext(s.(inFlight := s.inFlight - 1), now)
  }

  /** The sources a chain starts while the clock stands still at `now`:
      one scheduling step after another until the queue is empty. */
  function Drain(s: Streamer, now: real): seq<Source>
    decreases |s.queue|
  {
    if s.queue == [] then []
    else
      var r := ScheduleNext(s, now);
      if r.step.Started? then [r.step.source] + Drain(r.streamer, now) else []
  }

  /** With a stationary clock the queued segments start in arrival order,
      each exactly where the previous one ends: segment k starts at the
      first start time plus the durations of segments 0 .. k-1. */
  lemma {:induction false} DrainBackToBack(s: Streamer, now: real)
    requires forall k :: 0 <= k < |s.queue| ==> s.queue[k] != []
    ensures |Drain(s, now)| == |s.queue|
    ensures forall k :: 0 <= k < |s.queue| ==>
      && Drain(s, now)[k].samples == s.queue[k]
      && Drain(s, now)[k].start == Max(s.cursor, now) + TotalDuration(s.queue[..k], s.rate)
    decreases |s.queue|
  {
    if s.queue != [] {
      var r := ScheduleNext(s, now);
      var s' := r.streamer;
      assert s'.cursor == Max(s.cursor, now) + Duration(s.queue[0], s.rate);
      assert Max(s'.cursor, now) == s'.cursor;
      DrainBackToBack(s', now);
      var out := Drain(s, now);
      assert out == [r.step.source] + Drain(s', now);
      forall k | 0 <= k < |s.queue|
        ensures out[k].samples == s.queue[k]
        ensures out[k].start == Max(s.cursor, now) + TotalDuration(s.queue[..k], s.rate)
      {
        if k == 0 {
          assert s.queue[..0] == [];
        } else {
          assert out[k] == Drain(s', now)[k - 1];
          assert s.queue[..k][0] == s.queue[0];
          assert s.queue[..k][1..] == s'.queue[..k - 1];
        }
      }
    }
  }

  /** After `stop`, the next chunk starts at the later of the old cursor and
      the sink clock: the schedule is resumed, never restarted from 0. */
  lemma StreamAfterStop(s: Streamer, bytes: seq<Byte>, now: real)
    requires Valid(s) && s.initialized && |bytes| >= 2
    ensures StreamAudio(Stop(s), Uint8(bytes), now).step == Started(Source(Max(s.cursor, now), DecodeSamples(bytes)))
    ensures StreamAudio(Stop(s), Uint8(bytes), now).step.source.start >= s.cursor
  {
  }

  /** With a moving clock, the next segment starts from `onended`: at the
      cursor when the previous source's end is reported on time, and at
      `now`, leaving a gap of `now - cursor`, when it is reported late. */
  lemma EndedStartsAtCursorOrLater(s: Streamer, now: real)
    requires s.inFlight > 0 && s.queue != [] && s.queue[0] != []
    ensures Ended(s, now).step.Started?
    ensures Ended(s, now).step.source.samples == s.queue[0]
    ensures now <= s.cursor ==> Ended(s, now).step.source.start == s.cursor
    ensures now > s.cursor ==> Ended(s, now).step.source.start == now
  {
  }

  /** A chain is stalled when `isPlaying` is set but no started source is
      left to fire `onended` and resume it. */
  predicate Stalled(s: Streamer)
  {
    s.playing && s.inFlight == 0
  }

  /** As written, one empty chunk on an idle streamer stalls it: the
      zero-length segment is dequeued, `isPlaying` is set, and
      `createBuffer` throws before any source is started. */
  lemma EmptyChunkStallsAsWritten(rate: Rate, now: real)
    ensures var r := StreamAudioAsWritten(Initialize(NewStreamer(rate)), Uint8([]), now);
      r.step == Threw && Stalled(r.streamer) && !Valid(r.streamer)
  {
  }

  /** A stalled streamer stays stalled: later chunks are only queued, never
      handed to the sink, and no `onended` can arrive; only `stop` (an
      `interrupted` message) clears it. */
  lemma StalledStaysStalled(s: Streamer, chunk: Chunk, now: real)
    requires Stalled(s)
    ensures StreamAudioAsWritten(s, chunk, now).step == Idle
    ensures Stalled(StreamAudioAsWritten(s, chunk, now).streamer)
    ensures Ended(s, now) == Scheduled(s, Idle)
    ensures !Stalled(Stop(s))
  {
  }
}
