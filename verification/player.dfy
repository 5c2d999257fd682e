/**
 * The browser's audio queue (`AudioPlayer`, src/client/src/utils/audioPlayer.ts).
 *
 * Chunks are queued by `playAudio` and drained one at a time by
 * `processQueue`. The drain loop is asynchronous: it takes a chunk off the
 * queue, awaits its decoding and start (`playAudioImmediate`), then polls
 * every 100 ms until the source has ended. Each await is a separate event
 * here: `Started` is the decoding finishing, `Ended` is the source's
 * `onended`, `Tick` is the poll timer. Web Audio itself is abstract: whether
 * the browser decodes the bytes as a file is a parameter.
 */
module Player {

  import opened Wrappers
  import Base64
  import Pcm
  import Subseq

  /** A queued chunk: Base64 audio and the sample rate it came with, if any. */
  datatype Chunk = Chunk(audio: string, sampleRate: Option<int>)

  /**
   * Where the drain loop is. `Idle`: no loop runs (`isProcessingQueue` is
   * false). `Preparing`: the chunk has been taken off the queue and its
   * decoding is awaited; `live` is false once a stop has cancelled it.
   * `Waiting`: the loop polls until playback ends.
   */
  datatype Phase = Idle | Preparing(chunk: Chunk, live: bool) | Waiting

  /** The player: the queue, the loop, and the chunk whose source is playing (`isPlaying`, `currentSource`). */
  datatype Player = Player(queue: seq<Chunk>, phase: Phase, playing: Option<Chunk>)

  const Init: Player := Player([], Idle, None)

  /** The states the player can reach. */
  predicate Valid(p: Player) {
    && (p.phase.Idle? ==> p.queue == [] && p.playing.None?)
    && (p.phase.Preparing? ==> p.playing.None?)
  }

  /** `isProcessingQueue`. */
  predicate Processing(p: Player) {
    !p.phase.Idle?
  }

  /** The chunks still to be played, in order: the one being prepared (unless cancelled), then the queue. */
  function Line(p: Player): seq<Chunk> {
    (if p.phase.Preparing? && p.phase.live then [p.phase.chunk] else []) + p.queue
  }

  /** The head of the drain loop: take the next chunk, or finish when the queue is empty. */
  function Advance(p: Player): (p': Player)
    requires p.playing.None?
    ensures Valid(p')
    ensures p'.phase.Idle? <==> p.queue == []
    ensures p.queue != [] ==> p'.phase == Preparing(p.queue[0], true) && p'.queue == p.queue[1..]
    ensures p'.playing == None
    ensures Line(p') == p.queue
  {
    if p.queue == [] then Player([], Idle, None)
    else Player(p.queue[1..], Preparing(p.queue[0], true), None)
  }

  /** `playAudio`: the chunk joins the tail of the queue; a drain starts only when none runs. */
  function Enqueue(p: Player, c: Chunk): (p': Player)
    requires Valid(p)
    ensures Valid(p')
    ensures Line(p') == Line(p) + [c]
    ensures Processing(p')
    ensures Processing(p) ==> p' == p.(queue := p.queue + [c])
    ensures !Processing(p) ==> p'.phase == Preparing(c, true) && p'.queue == []
  {
    var q := p.(queue := p.queue + [c]);
    if p.phase.Idle? then Advance(q) else q
  }

  /**
   * The chunk's decoding finishes: the previous source is stopped
   * (`stopImmediate`, nothing is playing at this point), and the new one
   * starts when it decodes; on failure nothing plays and the loop moves on
   * to the next chunk at once. A chunk a stop has cancelled never starts.
   */
  function Started(p: Player, ok: bool): (p': Player)
    requires Valid(p)
    ensures Valid(p')
    ensures !p.phase.Preparing? ==> p' == p
    ensures p.phase.Preparing? && p.phase.live && ok ==> p'.playing == Some(p.phase.chunk) && p'.phase.Waiting? && p'.queue == p.queue
    ensures p.phase.Preparing? && !(p.phase.live && ok) ==> p' == Advance(p.(phase := Waiting))
  {
    if !p.phase.Preparing? then p
    else if p.phase.live && ok then Player(p.queue, Waiting, Some(p.phase.chunk))
    else Advance(p.(phase := Waiting))
  }

  /** The source's `onended`: playback is over (`isPlaying = false`, `currentSource = null`). */
  function Ended(p: Player): (p': Player)
    requires Valid(p)
    ensures Valid(p')
    ensures p' == p.(playing := None)
  {
    p.(playing := None)
  }

  /** The 100 ms poll: the loop moves on only once nothing is playing. */
  function Tick(p: Player): (p': Player)
    requires Valid(p)
    ensures Valid(p')
    ensures !p.phase.Waiting? || p.playing.Some? ==> p' == p
    ensures p.phase.Waiting? && p.playing.None? ==> p' == Advance(p)
  {
    if p.phase.Waiting? && p.playing.None? then Advance(p) else p
  }

  /**
   * `stop` as written: the queue is emptied and the playing source stopped,
   * but a chunk already taken off the queue and still being decoded is not
   * touched, so it starts when its decoding finishes.
   */
  function Stop(p: Player): (p': Player)
    requires Valid(p)
    ensures Valid(p')
    ensures p'.queue == [] && p'.playing == None && p'.phase == p.phase
  {
    Player([], p.phase, None)
  }

  /** `stop` as evidently intended: the chunk being prepared is cancelled as well. */
  function StopFlushing(p: Player): (p': Player)
    requires Valid(p)
    ensures Valid(p')
    ensures p'.queue == [] && p'.playing == None
    ensures Line(p') == []
    ensures p'.phase.Idle? <==> p.phase.Idle?
  {
    var phase := if p.phase.Preparing? then Preparing(p.phase.chunk, false) else p.phase;
    Player([], phase, None)
  }

  /** One event of the player's life; `Stopped` is a call of `stop`. */
  datatype Event = Enqueued(c: Chunk) | DecodeFinished(ok: bool) | SourceEnded | PollTick | Stopped

  /** The effect of an event. */
  function Step(p: Player, e: Event): (p': Player)
    requires Valid(p)
    ensures Valid(p')
  {
    match e
    case Enqueued(c) => Enqueue(p, c)
    case DecodeFinished(ok) => Started(p, ok)
    case SourceEnded => Ended(p)
    case PollTick => Tick(p)
    case Stopped => Stop(p)
  }

  /** The chunk whose start an event attempts, if any. */
  function Attempted(p: Player, e: Event): seq<Chunk> {
    if e.DecodeFinished? && p.phase.Preparing? && p.phase.live then [p.phase.chunk] else []
  }

  /** The chunk an event adds. */
  function Added(e: Event): seq<Chunk> {
    if e.Enqueued? then [e.c] else []
  }

  /**
   * No chunk is reordered by a step: attempted chunks leave the head of the
   * line and new ones join its tail; only a stop drops chunks, and it drops
   * a tail of the line.
   */
  lemma StepKeepsOrder(p: Player, e: Event)
    requires Valid(p)
    ensures !e.Stopped? ==> Attempted(p, e) + Line(Step(p, e)) == Line(p) + Added(e)
    ensures e.Stopped? ==> Attempted(p, e) == [] && Added(e) == [] && Line(Step(p, e)) <= Line(p)
  {
    match e
    case Enqueued(c) =>
    case DecodeFinished(ok) =>
      if p.phase.Preparing? {
        assert Line(p) == Attempted(p, e) + p.queue;
      }
    case SourceEnded =>
    case PollTick =>
    case Stopped =>
      assert Line(p) == Line(Step(p, e)) + p.queue;
  }

  /** What a step attempts, followed by the line after it, is a subsequence of the line before it followed by what it adds. */
  lemma StepKeepsSubseq(p: Player, e: Event)
    requires Valid(p)
    ensures Subseq.IsSubseq(Attempted(p, e) + Line(Step(p, e)), Line(p) + Added(e))
  {
    StepKeepsOrder(p, e);
    if e.Stopped? {
      var rest := Line(p)[|Line(Step(p, e))|..];
      assert Line(p) + Added(e) == Line(Step(p, e)) + rest;
      assert Attempted(p, e) + Line(Step(p, e)) == Line(Step(p, e));
      Subseq.Prefix(Line(Step(p, e)), rest);
    } else {
      Subseq.Reflexive(Line(p) + Added(e));
    }
  }

  /** The state after a run of events. */
  function Run(p: Player, es: seq<Event>): (p': Player)
    requires Valid(p)
    ensures Valid(p')
    decreases |es|
  {
    if es == [] then p else Run(Step(p, es[0]), es[1..])
  }

  /** The chunks a run attempts to start, in order. */
  function AttemptedIn(p: Player, es: seq<Event>): seq<Chunk>
    requires Valid(p)
    decreases |es|
  {
    if es == [] then [] else Attempted(p, es[0]) + AttemptedIn(Step(p, es[0]), es[1..])
  }

  /** The chunks a run enqueues, in order. */
  function AddedIn(es: seq<Event>): seq<Chunk> {
    if es == [] then [] else Added(es[0]) + AddedIn(es[1..])
  }

  /** A run in which `stop` is never called. */
  predicate NoStop(es: seq<Event>) {
    forall i :: 0 <= i < |es| ==> !es[i].Stopped?
  }

  /**
   * First in, first out, stops included: over any run, the chunks started,
   * followed by what is still waiting at the end, appear in the same order
   * in the line as it was followed by the chunks enqueued.
   */
  lemma {:induction false} RunKeepsOrder(p: Player, es: seq<Event>)
    requires Valid(p)
    ensures Subseq.IsSubseq(AttemptedIn(p, es) + Line(Run(p, es)), Line(p) + AddedIn(es))
    decreases |es|
  {
    if es == [] {
      assert AttemptedIn(p, es) + Line(Run(p, es)) == Line(p);
      assert Line(p) + AddedIn(es) == Line(p);
      Subseq.Reflexive(Line(p));
    } else {
      var p1 := Step(p, es[0]);
      var first := Attempted(p, es[0]);
      var later := AttemptedIn(p1, es[1..]) + Line(Run(p1, es[1..]));
      var addedLater := AddedIn(es[1..]);
      RunUnfolds(p, es);
      RunKeepsOrder(p1, es[1..]);
      StepKeepsSubseq(p, es[0]);
      Subseq.PrependBoth(first, later, Line(p1) + addedLater);
      Subseq.AppendBoth(first + Line(p1), Line(p) + Added(es[0]), addedLater);
      Associate(first, Line(p1), addedLater);
      Associate(Line(p), Added(es[0]), addedLater);
      Associate(first, AttemptedIn(p1, es[1..]), Line(Run(p1, es[1..])));
      Subseq.Transitive(first + later, (first + Line(p1)) + addedLater, Line(p) + AddedIn(es));
    }
  }

  /** Sequence concatenation is associative. */
  lemma Associate<T>(a: seq<T>, b: seq<T>, c: seq<T>)
    ensures a + (b + c) == (a + b) + c
  {
  }

  /**
   * First in, first out, without stops: the chunks started are exactly the
   * line as it was followed by the chunks enqueued, minus what is still
   * waiting at the end.
   */
  lemma {:induction false} RunWithoutStopKeepsAll(p: Player, es: seq<Event>)
    requires Valid(p) && NoStop(es)
    ensures AttemptedIn(p, es) + Line(Run(p, es)) == Line(p) + AddedIn(es)
    decreases |es|
  {
    if es != [] {
      var p1 := Step(p, es[0]);
      StepKeepsOrder(p, es[0]);
      assert NoStop(es[1..]) by {
        forall i | 0 <= i < |es| - 1 ensures !es[1..][i].Stopped? {
          assert es[1..][i] == es[i + 1];
        }
      }
      RunWithoutStopKeepsAll(p1, es[1..]);
      RunUnfolds(p, es);
      Regroup(Attempted(p, es[0]), AttemptedIn(p1, es[1..]), Line(Run(p1, es[1..])), Line(p1), AddedIn(es[1..]), Line(p), Added(es[0]));
    }
  }

  /** One event of a run, taken off the front. */
  lemma RunUnfolds(p: Player, es: seq<Event>)
    requires Valid(p) && es != []
    ensures AttemptedIn(p, es) == Attempted(p, es[0]) + AttemptedIn(Step(p, es[0]), es[1..])
    ensures Run(p, es) == Run(Step(p, es[0]), es[1..])
    ensures AddedIn(es) == Added(es[0]) + AddedIn(es[1..])
  {
  }

  /** The bookkeeping of one induction step of `RunWithoutStopKeepsAll`. */
  lemma Regroup<T>(first: seq<T>, later: seq<T>, left: seq<T>, mid: seq<T>, addedLater: seq<T>, line: seq<T>, added: seq<T>)
    requires later + left == mid + addedLater
    requires first + mid == line + added
    ensures (first + later) + left == line + (added + addedLater)
  {
    calc {
      (first + later) + left;
      first + (later + left);
      first + (mid + addedLater);
      (first + mid) + addedLater;
      (line + added) + addedLater;
    }
  }

  /**
   * Chunks are started in the order they were enqueued, stops or no stops;
   * without stops, every chunk started is the next one enqueued.
   */
  lemma PlaysInEnqueueOrder(es: seq<Event>)
    ensures Subseq.IsSubseq(AttemptedIn(Init, es), AddedIn(es))
    ensures NoStop(es) ==> AttemptedIn(Init, es) <= AddedIn(es)
  {
    RunKeepsOrder(Init, es);
    var rest := Line(Run(Init, es));
    assert Line(Init) + AddedIn(es) == AddedIn(es);
    Subseq.Prefix(AttemptedIn(Init, es), rest);
    Subseq.Transitive(AttemptedIn(Init, es), AttemptedIn(Init, es) + rest, AddedIn(es));
    if NoStop(es) {
      RunWithoutStopKeepsAll(Init, es);
      assert AttemptedIn(Init, es) <= AttemptedIn(Init, es) + rest;
    }
  }

  /**
   * The stop does not silence a chunk whose decoding is in flight: enqueue
   * `c`, stop, and `c` starts playing once it decodes.
   */
  lemma StopLetsPendingChunkPlay(c: Chunk)
    ensures Started(Stop(Enqueue(Init, c)), true).playing == Some(c)
  {
  }

  /**
   * With the intended stop, nothing enqueued before the stop is ever
   * started afterwards: every chunk started is one enqueued later, in order.
   */
  lemma StopFlushingSilences(p: Player, es: seq<Event>)
    requires Valid(p)
    ensures Subseq.IsSubseq(AttemptedIn(StopFlushing(p), es), AddedIn(es))
    ensures NoStop(es) ==> AttemptedIn(StopFlushing(p), es) <= AddedIn(es)
    ensures StopFlushing(p).playing == None
  {
    var q := StopFlushing(p);
    RunKeepsOrder(q, es);
    var rest := Line(Run(q, es));
    assert Line(q) + AddedIn(es) == AddedIn(es);
    Subseq.Prefix(AttemptedIn(q, es), rest);
    Subseq.Transitive(AttemptedIn(q, es), AttemptedIn(q, es) + rest, AddedIn(es));
    if NoStop(es) {
      RunWithoutStopKeepsAll(q, es);
      assert AttemptedIn(q, es) <= AttemptedIn(q, es) + rest;
    }
  }

  // ---------------------------------------------------------------------------
  // Decoding a chunk
  // ---------------------------------------------------------------------------

  /** The default rate of the raw-PCM fallback. */
  const DefaultSampleRate: int := 44100

  /** A decoded chunk: a compressed file the browser understood, or raw mono 16-bit PCM. */
  datatype Buffer = FileAudio | PcmAudio(samples: seq<int>, sampleRate: int, channels: int)

  /**
   * The raw-PCM fallback: the bytes as little-endian 16-bit samples at the
   * given rate, or 44100 when it is absent or 0, one channel. An odd byte
   * count fails (`new Int16Array` on it throws), and so does an empty one
   * (`createBuffer` refuses zero frames).
   */
  function PcmFallback(bytes: seq<Base64.byte>, sampleRate: Option<int>): (r: Result<Buffer, string>)
    ensures r.Success? <==> |bytes| % 2 == 0 && |bytes| > 0
    ensures r.Success? ==> r.value.PcmAudio? && |r.value.samples| == |bytes| / 2 && r.value.channels == 1
    ensures r.Success? && r.value.PcmAudio? ==> r.value.sampleRate == (if sampleRate.Some? && sampleRate.value != 0 then sampleRate.value else DefaultSampleRate)
  {
    if |bytes| % 2 != 0 then Failure("byte length of Int16Array should be a multiple of 2")
    else if |bytes| == 0 then Failure("createBuffer: the number of frames must be positive")
    else
      var rate := if sampleRate.Some? && sampleRate.value != 0 then sampleRate.value else DefaultSampleRate;
      Success(PcmAudio(Pcm.UnpackSamples(bytes), rate, 1))
  }

  /**
   * `playAudioImmediate`'s decoding: `atob`, then the browser's own decoder
   * (`fileDecodes`), then the raw-PCM fallback.
   */
  function DecodeChunk(c: Chunk, fileDecodes: bool): (r: Result<Buffer, string>)
    ensures Base64.Decode(c.audio).None? ==> r.Failure?
  {
    match Base64.Decode(c.audio)
    case None => Failure("atob: the string to be decoded is not correctly encoded")
    case Some(bytes) => if fileDecodes then Success(FileAudio) else PcmFallback(bytes, c.sampleRate)
  }

  /**
   * Raw 16-bit audio that a server encoded plays back through the fallback
   * as the very samples that were packed, at the rate sent with it.
   */
  lemma PackedAudioPlaysBack(samples: seq<int>, bytes: seq<Base64.byte>, rate: int)
    requires Pcm.PacksInt16LE(bytes, samples) && |samples| > 0 && rate != 0
    ensures DecodeChunk(Chunk(Base64.Encode(bytes), Some(rate)), false) == Success(PcmAudio(samples, rate, 1))
  {
    Pcm.FrameRoundTrip(samples, bytes);
  }
}
