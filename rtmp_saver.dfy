/**
 * `save_rtmp_loop`: consume the blocks the RTMP generator yields, cut them
 * into chunks of at least `chunk_duration` seconds and `16000 *
 * chunk_duration` frames, post each chunk for transcription, append the first
 * segment's text to the running transcript, send the transcript over the
 * websocket, store it in the bucket, and record the session's stage.
 *
 * The outside world is abstract: `Services` bundles the wall clock (the n-th
 * `time.time()` call of the loop), the chunk duration, the transcription
 * service's answer for each chunk number and whether the websocket send for
 * each chunk number succeeds. The bucket is a map from object key to JSON
 * object.
 */
module RtmpSaver {
  import opened Wrappers
  import opened Ascii
  import opened StreamConnector

  /** The JSON values this loop writes. */
  datatype Json = Str(s: string) | Num(n: int)

  type Record = map<string, Json>

  /** The bucket: object key to the JSON object stored there. */
  type Store = map<string, Record>

  const StageStarted: string := "rtmp_saving_started"
  const StageDone: string := "rtmp_saving_done"
  const SampleRate: nat := 16000
  const BytesPerFrame: nat := 2

  /** The object holding the session's stage. */
  function StageKey(k: string): string {
    k + "/" + k + ".json"
  }

  /** The object holding the session's transcript. */
  function TranscriptKey(k: string): string {
    k + "/transcript.json"
  }

  /** The key a chunk is named after. */
  function ChunkKey(k: string, n: nat): string {
    k + "/" + k + "_chunk" + Decimal(n) + ".wav"
  }

  /** `key.split("/")[1]`: the file name the chunk is posted under. */
  function ChunkName(k: string, n: nat): string {
    var parts := Split(ChunkKey(k, n), "/");
    if |parts| >= 2 then parts[1] else ""
  }

  /** For a stream key without `/`, chunk `n` is posted as `<key>_chunk<n>.wav`. */
  lemma {:induction false} ChunkNameForm(k: string, n: nat)
    requires '/' !in k
    ensures ChunkName(k, n) == k + "_chunk" + Decimal(n) + ".wav"
  {
    var b := k + "_chunk" + Decimal(n) + ".wav";
    forall i | 0 <= i < |b|
      ensures b[i] != '/'
    {
      if i < |k| {
        assert b[i] == k[i];
        assert k[i] in k;
      } else if |k| + 6 <= i < |k| + 6 + |Decimal(n)| {
        assert b[i] == Decimal(n)[i - |k| - 6];
      }
    }
    assert ChunkKey(k, n) == k + ['/'] + b;
    SplitAtFirst(k, '/', b);
    SplitAbsent(b, '/');
  }

  /** For a stream key without `/`, no two chunks of a session are posted under the same name. */
  lemma {:induction false} ChunkNamesDistinct(k: string, m: nat, n: nat)
    requires '/' !in k && m != n
    ensures ChunkName(k, m) != ChunkName(k, n)
  {
    ChunkNameForm(k, m);
    ChunkNameForm(k, n);
    var a, b := k + "_chunk" + Decimal(m) + ".wav", k + "_chunk" + Decimal(n) + ".wav";
    if a == b {
      assert Decimal(m) == a[|k| + 6..|a| - 4];
      assert Decimal(n) == b[|k| + 6..|b| - 4];
      DecimalInjective(m, n);
    }
  }

  /** The stage object and the transcript object are the same object exactly for the stream key `transcript`. */
  lemma {:induction false} KeysCollide(k: string)
    ensures StageKey(k) == TranscriptKey(k) <==> k == "transcript"
  {
    if StageKey(k) == TranscriptKey(k) {
      var tail := k + ".json";
      assert StageKey(k) == k + "/" + tail;
      assert tail == StageKey(k)[|k| + 1..] == TranscriptKey(k)[|k| + 1..] == "transcript.json";
      assert k == tail[..|k|];
    }
  }

  /** The stage object written when the first block arrives. */
  function StartedRecord(k: string): Record {
    map["stream_key" := Str(k), "last_processed_end_time" := Num(0), "stage" := Str(StageStarted)]
  }

  /** First block of the session: write the stage object unless one exists already. */
  function MarkStarted(k: string, store: Store): (r: Store)
    ensures r.Keys == store.Keys + {StageKey(k)}
    ensures forall key :: key in store ==> r[key] == store[key]
    ensures StageKey(k) !in store ==> r[StageKey(k)] == StartedRecord(k)
  {
    if StageKey(k) in store then store else store[StageKey(k) := StartedRecord(k)]
  }

  function StoreTranscript(k: string, transcript: string, store: Store): Store {
    store[TranscriptKey(k) := map["transcript" := Str(transcript)]]
  }

  /**
   * End of the session: set the stage of a non-empty stage object. (Reading a
   * missing object raises inside the outer handler, which leaves the bucket
   * as it is too.)
   */
  function MarkDone(k: string, store: Store): (r: Store)
    ensures r.Keys == store.Keys
    ensures forall key :: key in store && key != StageKey(k) ==> r[key] == store[key]
    ensures StageKey(k) in store ==>
      var (before, after) := (store[StageKey(k)], r[StageKey(k)]);
      && (before == map[] ==> after == before)
      && (before != map[] ==> after.Keys == before.Keys + {"stage"} && after["stage"] == Str(StageDone))
      && forall field :: field in before && field != "stage" ==> after[field] == before[field]
  {
    var key := StageKey(k);
    if key in store && store[key] != map[] then store[key := store[key]["stage" := Str(StageDone)]] else store
  }

  /**
   * The transcription service's answer for one chunk: `Unreachable` when the
   * post raises or the answer has no `prediction[0]`, otherwise the texts of
   * its segments (`None` for a segment without text).
   */
  datatype Transcription = Unreachable | Prediction(segments: seq<Option<string>>)

  /** The text of the first segment; empty when there is none. */
  function FirstText(segments: seq<Option<string>>): string {
    if segments != [] && segments[0].Some? then segments[0].value else ""
  }

  function TextOf(t: Transcription): string {
    if t.Prediction? then FirstText(t.segments) else ""
  }

  /** One transcript update: a non-empty text is appended on a new line, an empty one changes nothing. */
  function Append(transcript: string, text: string): string {
    if text == "" then transcript
    else if transcript == "" then text
    else transcript + "\n" + text
  }

  /** The transcript after the texts of successive chunks. */
  function Accumulate(texts: seq<string>): string
    decreases |texts|
  {
    if texts == [] then "" else Append(Accumulate(texts[..|texts| - 1]), texts[|texts| - 1])
  }

  function NonEmpty(texts: seq<string>): (r: seq<string>)
    ensures forall i :: 0 <= i < |r| ==> r[i] != ""
    decreases |texts|
  {
    if texts == [] then []
    else NonEmpty(texts[..|texts| - 1]) + (if texts[|texts| - 1] == "" then [] else [texts[|texts| - 1]])
  }

  /** The transcript is the non-empty texts, in chunk order, one per line. */
  lemma {:induction false} AccumulateIsJoin(texts: seq<string>)
    ensures Accumulate(texts) == Join("\n", NonEmpty(texts))
    decreases |texts|
  {
    if texts != [] {
      var init, last := texts[..|texts| - 1], texts[|texts| - 1];
      AccumulateIsJoin(init);
      assert Accumulate(texts) == Append(Accumulate(init), last);
      if last != "" {
        if NonEmpty(init) == [] {
          assert NonEmpty(texts) == [last];
        } else {
          JoinAppend("\n", NonEmpty(init), last);
          JoinNonEmpty(NonEmpty(init));
        }
        assert NonEmpty(texts) == NonEmpty(init) + [last];
      } else {
        assert NonEmpty(texts) == NonEmpty(init) + [] == NonEmpty(init);
      }
    }
  }

  lemma {:induction false} JoinNonEmpty(parts: seq<string>)
    requires parts != [] && parts[0] != ""
    ensures Join("\n", parts) != ""
  {
    if |parts| > 1 {
      assert Join("\n", parts)[0] == parts[0][0];
    }
  }

  /** What the loop depends on besides the stream. */
  datatype Services = Services(
    clock: nat -> real,                 // the n-th clock read of the loop, in seconds
    chunkDuration: nat,                 // `heconstants.chunk_duration`, in seconds
    transcribe: nat -> Transcription,   // the answer for chunk number n
    sendOk: nat -> bool)                // whether the websocket send after chunk n succeeds

  /** Read `j` of the clock shows no earlier time than read `i`. */
  ghost predicate NotBefore(clock: nat -> real, i: nat, j: nat) {
    clock(i) <= clock(j)
  }

  /** The clock never goes back. */
  ghost predicate Monotone(clock: nat -> real) {
    forall i: nat, j: nat :: i <= j ==> NotBefore(clock, i, j)
  }

  ghost predicate Usable(env: Services) {
    env.chunkDuration > 0 && Monotone(env.clock)
  }

  function FramesPerChunk(env: Services): int {
    SampleRate * env.chunkDuration
  }

  /** The frames a run of blocks adds to the WAV file: `len(block) // 2` each. */
  function Frames(bs: seq<Block>): int
    decreases |bs|
  {
    if bs == [] then 0 else Frames(bs[..|bs| - 1]) + |bs[|bs| - 1]| / BytesPerFrame
  }

  lemma {:induction false} FramesConcat(a: seq<Block>, b: seq<Block>)
    ensures Frames(a + b) == Frames(a) + Frames(b)
    decreases |b|
  {
    if b == [] {
      assert a + b == a;
    } else {
      assert (a + b)[..|a + b| - 1] == a + b[..|b| - 1];
      assert (a + b)[|a + b| - 1] == b[|b| - 1];
      FramesConcat(a, b[..|b| - 1]);
      assert Frames(a + b) == Frames(a + b[..|b| - 1]) + |b[|b| - 1]| / BytesPerFrame;
    }
  }

  /** The condition that closes a chunk, checked after each block. */
  predicate Full(env: Services, start: real, read: nat, frames: int) {
    env.clock(read) - start >= env.chunkDuration as real && frames >= FramesPerChunk(env)
  }

  /**
   * The inner `for` loop: from block `pos`, with `frames` written and the
   * next clock read numbered `read`, the index one past the last block the
   * chunk takes.
   */
  function Fill(blocks: seq<Block>, pos: nat, frames: int, env: Services, read: nat, start: real): (end: nat)
    requires pos <= |blocks|
    ensures pos <= end <= |blocks|
    decreases |blocks| - pos
  {
    if pos == |blocks| then pos
    else
      var f := frames + |blocks[pos]| / BytesPerFrame;
      if Full(env, start, read, f) then pos + 1
      else Fill(blocks, pos + 1, f, env, read + 1, start)
  }

  /**
   * A chunk takes at least one block unless the stream is drained, and ends
   * at the first block after which it is full, or at the end of the stream.
   */
  lemma {:induction false} FillStopsWhenFull(
    blocks: seq<Block>, pos: nat, frames: int, env: Services, read: nat, start: real)
    requires pos <= |blocks|
    ensures var end := Fill(blocks, pos, frames, env, read, start);
      && (end == pos <==> pos == |blocks|)
      && (end == |blocks| || Full(env, start, read + (end - 1 - pos), frames + Frames(blocks[pos..end])))
      && (forall j :: pos < j < end ==> !Full(env, start, read + (j - 1 - pos), frames + Frames(blocks[pos..j])))
    decreases |blocks| - pos
  {
    if pos < |blocks| {
      var f := frames + |blocks[pos]| / BytesPerFrame;
      FramesFirst(blocks, pos, pos + 1);
      assert frames + Frames(blocks[pos..pos + 1]) == f by {
        assert blocks[pos + 1..pos + 1] == [];
      }
      var end := Fill(blocks, pos, frames, env, read, start);
      if Full(env, start, read, f) {
        assert end == pos + 1;
      } else {
        assert end == Fill(blocks, pos + 1, f, env, read + 1, start);
        FillStopsWhenFull(blocks, pos + 1, f, env, read + 1, start);
        forall j | pos < j <= end
          ensures frames + Frames(blocks[pos..j]) == f + Frames(blocks[pos + 1..j])
        {
          FramesFirst(blocks, pos, j);
        }
        forall j | pos < j < end
          ensures !Full(env, start, read + (j - 1 - pos), frames + Frames(blocks[pos..j]))
        {
          if j > pos + 1 {
            assert read + (j - 1 - pos) == (read + 1) + (j - 1 - (pos + 1));
          }
        }
      }
    }
  }

  lemma {:induction false} FramesFirst(blocks: seq<Block>, pos: nat, j: nat)
    requires pos < j <= |blocks|
    ensures Frames(blocks[pos..j]) == |blocks[pos]| / BytesPerFrame + Frames(blocks[pos + 1..j])
  {
    assert blocks[pos..j] == blocks[pos..pos + 1] + blocks[pos + 1..j];
    FramesConcat(blocks[pos..pos + 1], blocks[pos + 1..j]);
    assert blocks[pos..pos + 1][..0] == [];
  }

  /** Why the session ended. */
  datatype Stop =
    | StreamFailed       // the generator raised before yielding anything: the connection never opened
    | TranscribeFailed   // posting a chunk for transcription raised
    | NoClock            // the first chunk got no block, so `current_time` was never bound
    | ClientClosed        // sending the transcript over the websocket raised
    | ShortChunk         // the last chunk lasted less than the chunk duration

  /** The three ways out through the outer exception handler, which skip the final stage update. */
  predicate Aborted(stop: Stop) {
    stop.StreamFailed? || stop.TranscribeFailed? || stop.NoClock?
  }

  /** A chunk posted for transcription: its file name and its blocks. */
  datatype Posted = Posted(name: string, blocks: seq<Block>)

  /** The observable result of a session: chunks posted, transcripts sent, final bucket, and why it ended. */
  datatype Saved = Saved(posted: seq<Posted>, sent: seq<string>, store: Store, stop: Stop)

  /** The loop's state between two chunks. `ticks` counts the clock reads so far and `lastRead` is the read `current_time` holds, if any. */
  datatype Progress = Progress(
    pos: nat, ticks: nat, chunkNo: nat, started: bool, transcript: string,
    lastRead: Option<nat>, store: Store, posted: seq<Posted>, sent: seq<string>)

  function Begin(store0: Store): Progress {
    Progress(0, 0, 1, false, "", None, store0, [], [])
  }

  /** After one chunk: the state the loop goes on from, or the end of the session. */
  datatype Next = Continue(next: Progress) | Finish(result: Saved)

  /**
   * What the second half of an iteration leaves behind: the chunk counter,
   * transcript, sent messages, bucket and posted chunks, and `stop` when the
   * loop ends there (the final stage update not yet applied).
   */
  datatype Shipped = Shipped(
    chunkNo: nat, transcript: string, sent: seq<string>, store: Store, posted: seq<Posted>, stop: Option<Stop>)

  /**
   * The second half of an iteration, once chunk number `chunkNo` is filled:
   * post it, extend, send and store the transcript, and go on only if the
   * chunk lasted the chunk duration. `currentTime` is the last clock read of
   * the session so far, if any.
   */
  function AfterFill(
    k: string, env: Services, chunkNo: nat, transcript: string, sent: seq<string>, store: Store,
    posted: seq<Posted>, chunk: seq<Block>, currentTime: Option<real>, start: real): (r: Shipped)
    ensures r.stop.None? ==> currentTime.Some? && currentTime.value - start >= env.chunkDuration as real
    ensures r.stop.None? ==> r.chunkNo == chunkNo + 1 && |r.sent| == |sent| + 1
    ensures r.posted == posted + [Posted(ChunkName(k, chunkNo), chunk)]
  {
    var posted' := posted + [Posted(ChunkName(k, chunkNo), chunk)];
    match env.transcribe(chunkNo)
    case Unreachable => Shipped(chunkNo, transcript, sent, store, posted', Some(TranscribeFailed))
    case Prediction(segments) =>
      var transcript' := Append(transcript, FirstText(segments));
      if !env.sendOk(chunkNo) then Shipped(chunkNo + 1, transcript', sent, store, posted', Some(ClientClosed))
      else
        var sent' := sent + [transcript'];
        var store' := StoreTranscript(k, transcript', store);
        var stop :=
          if currentTime.None? then Some(NoClock)
          else if currentTime.value - start < env.chunkDuration as real then Some(ShortChunk)
          else None;
        Shipped(chunkNo + 1, transcript', sent', store', posted', stop)
  }

  /** The loop goes on from state `q` updated by `s`, or the session ends with the final stage update unless it aborted. */
  function Resume(k: string, q: Progress, s: Shipped): Next {
    match s.stop
    case None => Continue(q.(chunkNo := s.chunkNo, transcript := s.transcript, sent := s.sent, store := s.store, posted := s.posted))
    case Some(stop) => Finish(Saved(s.posted, s.sent, if Aborted(stop) then s.store else MarkDone(k, s.store), stop))
  }

  /** The value of `current_time` in state `q`: the clock read it holds, if it is bound. */
  function CurrentTime(env: Services, q: Progress): Option<real> {
    if q.lastRead.Some? then Some(env.clock(q.lastRead.value)) else None
  }

  /** The loop state once the inner loop has taken the blocks from `p.pos` up to `end`. */
  function Filled(k: string, p: Progress, end: nat): Progress
    requires p.pos <= end
  {
    var ticks := p.ticks + 1 + (end - p.pos);
    p.(pos := end, ticks := ticks, started := p.started || end > p.pos,
       lastRead := if end > p.pos then Some(ticks - 1) else p.lastRead,
       store := if !p.started && end > p.pos then MarkStarted(k, p.store) else p.store)
  }

  /**
   * One iteration of the `while True` loop of `save_rtmp_loop`: fill a
   * chunk, then ship it. A session that goes on has taken at least one more
   * block, since on a drained stream `current_time` still holds an earlier
   * read and the chunk counts as short.
   */
  function ChunkStep(k: string, blocks: seq<Block>, env: Services, p: Progress): (r: Next)
    requires Usable(env)
    requires p.pos <= |blocks|
    requires p.lastRead.Some? ==> p.lastRead.value < p.ticks
    ensures r.Continue? ==> p.pos < r.next.pos <= |blocks|
    ensures r.Continue? && r.next.lastRead.Some? ==> r.next.lastRead.value < r.next.ticks
  {
    var start := env.clock(p.ticks);
    var end := Fill(blocks, p.pos, 0, env, p.ticks + 1, start);
    var q := Filled(k, p, end);
    assert p.lastRead.Some? ==> NotBefore(env.clock, p.lastRead.value, p.ticks);
    Resume(k, q, AfterFill(k, env, q.chunkNo, q.transcript, q.sent, q.store, q.posted, blocks[p.pos..end],
                           CurrentTime(env, q), start))
  }

  /** The `while True` loop of `save_rtmp_loop` from state `p`, followed by the final stage update. */
  function Saving(k: string, blocks: seq<Block>, env: Services, p: Progress): Saved
    requires Usable(env)
    requires p.pos <= |blocks|
    requires p.lastRead.Some? ==> p.lastRead.value < p.ticks
    decreases |blocks| - p.pos
  {
    match ChunkStep(k, blocks, env, p)
    case Finish(r) => r
    case Continue(q) => Saving(k, blocks, env, q)
  }

  /** A whole session over what the generator produced. */
  function SaveSession(k: string, blocks: seq<Block>, raises: bool, env: Services, store0: Store): Saved
    requires Usable(env)
  {
    if raises then Saved([], [], store0, StreamFailed) else Saving(k, blocks, env, Begin(store0))
  }

  lemma {:induction false} StepShips(k: string, blocks: seq<Block>, env: Services, p: Progress, end: nat, s: Shipped)
    requires Usable(env)
    requires p.pos <= |blocks|
    requires p.lastRead.Some? ==> p.lastRead.value < p.ticks
    requires end == Fill(blocks, p.pos, 0, env, p.ticks + 1, env.clock(p.ticks))
    requires var q := Filled(k, p, end);
      s == AfterFill(k, env, q.chunkNo, q.transcript, q.sent, q.store, q.posted, blocks[p.pos..end],
                     CurrentTime(env, q), env.clock(p.ticks))
    ensures ChunkStep(k, blocks, env, p) == Resume(k, Filled(k, p, end), s)
  {
  }

  /** The blocks of the posted chunks, in order. */
  function Taken(posted: seq<Posted>): seq<Block>
    decreases |posted|
  {
    if posted == [] then [] else Taken(posted[..|posted| - 1]) + posted[|posted| - 1].blocks
  }

  /** The texts the transcription service gave for chunks 1 to `n`. */
  function Texts(env: Services, n: nat): (r: seq<string>)
    ensures |r| == n
    decreases n
  {
    if n == 0 then [] else Texts(env, n - 1) + [TextOf(env.transcribe(n))]
  }

  /** Chunk `i + 1` of the session is posted under its own chunk number. */
  ghost predicate Named(k: string, posted: seq<Posted>) {
    forall i :: 0 <= i < |posted| ==> posted[i].name == ChunkName(k, i + 1)
  }

  /** Message `i` sent over the websocket is the whole transcript after chunk `i + 1`. */
  ghost predicate Transcripts(env: Services, sent: seq<string>) {
    forall i :: 0 <= i < |sent| ==> sent[i] == Accumulate(Texts(env, i + 1))
  }

  /** The bucket once the session has (or has not) taken a block and has stored the transcripts `sent`. */
  function StoreAfter(k: string, store0: Store, started: bool, sent: seq<string>): Store {
    var s := if started then MarkStarted(k, store0) else store0;
    if sent == [] then s else StoreTranscript(k, sent[|sent| - 1], s)
  }

  /** The invariant of the chunk loop: what its state says about the stream and the services so far. */
  ghost predicate Faithful(k: string, blocks: seq<Block>, env: Services, store0: Store, p: Progress) {
    && p.pos <= |blocks|
    && (p.lastRead.Some? ==> p.lastRead.value < p.ticks)
    && (p.lastRead.Some? <==> p.pos > 0)
    && p.started == (p.pos > 0)
    && p.chunkNo == |p.posted| + 1
    && Named(k, p.posted)
    && Taken(p.posted) == blocks[..p.pos]
    && |p.sent| == |p.posted|
    && p.transcript == Accumulate(Texts(env, |p.posted|))
    && Transcripts(env, p.sent)
    && (p.sent != [] ==> p.pos > 0)
    && p.store == StoreAfter(k, store0, p.pos > 0, p.sent)
  }

  /**
   * What a session over `blocks` has done when it ends: its chunks are
   * consecutive pieces of the stream from its start, named by chunk number;
   * every message sent is the transcript so far; a failed post or send stops
   * the loop at once; a short chunk or a missing clock only happens once the
   * stream is drained; and the bucket holds the stage object (written only if
   * it was missing), the last transcript sent, and the final stage update
   * unless the session aborted.
   */
  ghost predicate Ended(k: string, blocks: seq<Block>, env: Services, store0: Store, r: Saved) {
    && Named(k, r.posted)
    && |Taken(r.posted)| <= |blocks| && Taken(r.posted) == blocks[..|Taken(r.posted)|]
    && Transcripts(env, r.sent)
    && !r.stop.StreamFailed?
    && (r.stop.TranscribeFailed? ==> |r.sent| + 1 == |r.posted| && env.transcribe(|r.posted|).Unreachable?)
    && (r.stop.ClientClosed? ==> |r.sent| + 1 == |r.posted| && !env.sendOk(|r.posted|))
    && (r.stop.NoClock? || r.stop.ShortChunk? ==> |r.sent| == |r.posted| && Taken(r.posted) == blocks)
    && (r.stop.NoClock? ==> blocks == [])
    && r.store ==
      (var s := StoreAfter(k, store0, Taken(r.posted) != [], r.sent);
       if Aborted(r.stop) then s else MarkDone(k, s))
  }

  lemma {:induction false} TakenAppend(posted: seq<Posted>, x: Posted)
    ensures Taken(posted + [x]) == Taken(posted) + x.blocks
  {
    assert (posted + [x])[..|posted|] == posted;
  }

  lemma {:induction false} AccumulateTexts(env: Services, n: nat)
    requires n > 0
    ensures Accumulate(Texts(env, n)) == Append(Accumulate(Texts(env, n - 1)), TextOf(env.transcribe(n)))
  {
    var t := Texts(env, n);
    assert t[..n - 1] == Texts(env, n - 1);
  }

  /**
   * What shipping chunk number `n` leaves behind in `s`: the transcript gains
   * the chunk's text, and the message sent and the object stored are that
   * transcript; a failed post or send leaves the messages and the bucket as
   * they were; the loop goes on only past a chunk that lasted the chunk duration.
   */
  ghost predicate Shipping(
    k: string, env: Services, n: nat, sent: seq<string>, store0: Store, started: bool,
    currentTime: Option<real>, start: real, s: Shipped)
  {
    && (s.stop == Some(TranscribeFailed) <==> env.transcribe(n).Unreachable?)
    && (s.stop == Some(TranscribeFailed) || s.stop == Some(ClientClosed) ==>
          s.sent == sent && s.store == StoreAfter(k, store0, started, sent))
    && (s.stop == Some(ClientClosed) ==> !env.sendOk(n))
    && (s.stop != Some(TranscribeFailed) && s.stop != Some(ClientClosed) ==>
          && s.sent == sent + [s.transcript]
          && s.store == StoreAfter(k, store0, started, s.sent))
    && (s.stop != Some(TranscribeFailed) ==> s.chunkNo == n + 1 && s.transcript == Accumulate(Texts(env, n)))
    && Transcripts(env, s.sent)
    && (s.stop == Some(NoClock) <==> s.stop != Some(TranscribeFailed) && s.stop != Some(ClientClosed) && currentTime.None?)
    && (s.stop == Some(ShortChunk) ==> currentTime.Some? && currentTime.value - start < env.chunkDuration as real)
    && (s.stop.None? ==> currentTime.Some? && currentTime.value - start >= env.chunkDuration as real)
    && (s.stop.Some? ==> s.stop.value != StreamFailed)
  }

  lemma {:induction false} ShipKeeps(
    k: string, env: Services, n: nat, transcript: string, sent: seq<string>, store0: Store,
    started: bool, posted: seq<Posted>, chunk: seq<Block>, currentTime: Option<real>, start: real)
    requires n == |sent| + 1
    requires transcript == Accumulate(Texts(env, n - 1))
    requires Transcripts(env, sent)
    ensures Shipping(k, env, n, sent, store0, started, currentTime, start,
      AfterFill(k, env, n, transcript, sent, StoreAfter(k, store0, started, sent), posted, chunk, currentTime, start))
  {
    var store := StoreAfter(k, store0, started, sent);
    var s := AfterFill(k, env, n, transcript, sent, store, posted, chunk, currentTime, start);
    if env.transcribe(n).Prediction? {
      AccumulateTexts(env, n);
      if env.sendOk(n) {
        SentExtends(env, sent, s.transcript);
        StoreExtends(k, store0, started, sent, s.transcript);
      }
    }
  }

  lemma {:induction false} SentExtends(env: Services, sent: seq<string>, t: string)
    requires Transcripts(env, sent)
    requires t == Accumulate(Texts(env, |sent| + 1))
    ensures Transcripts(env, sent + [t])
  {
    var sent' := sent + [t];
    forall i | 0 <= i < |sent'|
      ensures sent'[i] == Accumulate(Texts(env, i + 1))
    {
      if i < |sent| {
        assert sent'[i] == sent[i];
      }
    }
  }

  /** Storing a transcript replaces the one stored before. */
  lemma {:induction false} StoreExtends(k: string, store0: Store, started: bool, sent: seq<string>, t: string)
    ensures StoreTranscript(k, t, StoreAfter(k, store0, started, sent)) == StoreAfter(k, store0, started, sent + [t])
  {
    var s1 := if started then MarkStarted(k, store0) else store0;
    if sent != [] {
      assert StoreTranscript(k, t, StoreTranscript(k, sent[|sent| - 1], s1)) == StoreTranscript(k, t, s1);
    }
  }

  /** What the inner loop leaves for the rest of a pass that started in state `p` at time `start`. */
  ghost predicate Took(k: string, blocks: seq<Block>, env: Services, p: Progress, end: nat, start: real) {
    && p.pos <= end <= |blocks|
    && (end == p.pos <==> p.pos == |blocks|)
    && (end < |blocks| ==>
          var t := CurrentTime(env, Filled(k, p, end));
          t.Some? && t.value - start >= env.chunkDuration as real)
  }

  /** The inner loop of a pass does what `Took` says. */
  lemma {:induction false} TookFill(k: string, blocks: seq<Block>, env: Services, p: Progress)
    requires p.pos <= |blocks|
    ensures var start := env.clock(p.ticks);
      Took(k, blocks, env, p, Fill(blocks, p.pos, 0, env, p.ticks + 1, start), start)
  {
    var start := env.clock(p.ticks);
    var end := Fill(blocks, p.pos, 0, env, p.ticks + 1, start);
    FillStopsWhenFull(blocks, p.pos, 0, env, p.ticks + 1, start);
    if end < |blocks| {
      assert Filled(k, p, end).lastRead == Some(p.ticks + 1 + (end - 1 - p.pos));
    }
  }

  /** The bucket once the inner loop has taken the blocks up to `end`. */
  lemma {:induction false} StoreFilled(k: string, blocks: seq<Block>, env: Services, store0: Store, p: Progress, end: nat)
    requires Faithful(k, blocks, env, store0, p)
    requires p.pos <= end
    ensures Filled(k, p, end).store == StoreAfter(k, store0, end > 0, p.sent)
  {
  }

  /** A pass that goes on leaves a state that keeps the invariant. */
  lemma {:induction false} ResumeFaithful(
    k: string, blocks: seq<Block>, env: Services, store0: Store, p: Progress, end: nat, start: real, s: Shipped)
    requires Faithful(k, blocks, env, store0, p)
    requires Took(k, blocks, env, p, end, start)
    requires Named(k, s.posted) && Taken(s.posted) == blocks[..end] && |s.posted| == |p.posted| + 1
    requires Shipping(k, env, |p.posted| + 1, p.sent, store0, end > 0, CurrentTime(env, Filled(k, p, end)), start, s)
    ensures var r := Resume(k, Filled(k, p, end), s);
      r.Continue? ==> Faithful(k, blocks, env, store0, r.next)
  {
  }

  /** A pass whose post or send fails ends the session as `Ended` says. */
  lemma {:induction false} FailureEnds(
    k: string, blocks: seq<Block>, env: Services, store0: Store, p: Progress, end: nat, start: real, s: Shipped)
    requires Faithful(k, blocks, env, store0, p)
    requires Took(k, blocks, env, p, end, start)
    requires Named(k, s.posted) && Taken(s.posted) == blocks[..end] && |s.posted| == |p.posted| + 1
    requires Shipping(k, env, |p.posted| + 1, p.sent, store0, end > 0, CurrentTime(env, Filled(k, p, end)), start, s)
    requires s.stop == Some(TranscribeFailed) || s.stop == Some(ClientClosed)
    ensures Ended(k, blocks, env, store0, Resume(k, Filled(k, p, end), s).result)
  {
  }

  /** A pass that finds the stream drained ends the session as `Ended` says. */
  lemma {:induction false} DrainEnds(
    k: string, blocks: seq<Block>, env: Services, store0: Store, p: Progress, end: nat, start: real, s: Shipped)
    requires Faithful(k, blocks, env, store0, p)
    requires Took(k, blocks, env, p, end, start)
    requires Named(k, s.posted) && Taken(s.posted) == blocks[..end] && |s.posted| == |p.posted| + 1
    requires Shipping(k, env, |p.posted| + 1, p.sent, store0, end > 0, CurrentTime(env, Filled(k, p, end)), start, s)
    requires s.stop == Some(NoClock) || s.stop == Some(ShortChunk)
    ensures Ended(k, blocks, env, store0, Resume(k, Filled(k, p, end), s).result)
  {
  }

  /** One pass of the loop keeps the invariant, or ends the session as `Ended` says. */
  lemma {:induction false} StepFaithful(
    k: string, blocks: seq<Block>, env: Services, store0: Store, p: Progress, end: nat, s: Shipped)
    requires Faithful(k, blocks, env, store0, p)
    requires end == Fill(blocks, p.pos, 0, env, p.ticks + 1, env.clock(p.ticks))
    requires var q := Filled(k, p, end);
      s == AfterFill(k, env, q.chunkNo, q.transcript, q.sent, q.store, q.posted, blocks[p.pos..end],
                     CurrentTime(env, q), env.clock(p.ticks))
    ensures var r := Resume(k, Filled(k, p, end), s);
      && (r.Continue? ==> Faithful(k, blocks, env, store0, r.next))
      && (r.Finish? ==> Ended(k, blocks, env, store0, r.result))
  {
    var start := env.clock(p.ticks);
    var q := Filled(k, p, end);
    StoreFilled(k, blocks, env, store0, p, end);
    TookFill(k, blocks, env, p);
    ShipKeeps(k, env, q.chunkNo, q.transcript, q.sent, store0, end > 0, q.posted, blocks[p.pos..end], CurrentTime(env, q), start);
    PostChunk(k, blocks, p.posted, p.pos, end);
    ResumeFaithful(k, blocks, env, store0, p, end, start, s);
    if s.stop == Some(TranscribeFailed) || s.stop == Some(ClientClosed) {
      FailureEnds(k, blocks, env, store0, p, end, start, s);
    } else if s.stop.Some? {
      DrainEnds(k, blocks, env, store0, p, end, start, s);
    }
  }

  /** Posting the blocks from `pos` to `end` as the next chunk keeps the chunks named and in stream order. */
  lemma {:induction false} PostChunk(k: string, blocks: seq<Block>, posted: seq<Posted>, pos: nat, end: nat)
    requires pos <= end <= |blocks|
    requires Named(k, posted) && Taken(posted) == blocks[..pos]
    ensures var posted' := posted + [Posted(ChunkName(k, |posted| + 1), blocks[pos..end])];
      Named(k, posted') && Taken(posted') == blocks[..end]
  {
    var posted' := posted + [Posted(ChunkName(k, |posted| + 1), blocks[pos..end])];
    TakenAppend(posted, posted'[|posted|]);
    assert blocks[..pos] + blocks[pos..end] == blocks[..end];
    forall i | 0 <= i < |posted'|
      ensures posted'[i].name == ChunkName(k, i + 1)
    {
      if i < |posted| {
        assert posted'[i] == posted[i];
      }
    }
  }

  /** Every session that runs the loop ends as `Ended` says. */
  lemma {:induction false} SavingEnded(k: string, blocks: seq<Block>, env: Services, store0: Store, p: Progress)
    requires Usable(env)
    requires Faithful(k, blocks, env, store0, p)
    ensures Ended(k, blocks, env, store0, Saving(k, blocks, env, p))
    decreases |blocks| - p.pos
  {
    var start := env.clock(p.ticks);
    var end := Fill(blocks, p.pos, 0, env, p.ticks + 1, start);
    var q := Filled(k, p, end);
    var s := AfterFill(k, env, q.chunkNo, q.transcript, q.sent, q.store, q.posted, blocks[p.pos..end],
                       CurrentTime(env, q), start);
    StepShips(k, blocks, env, p, end, s);
    StepFaithful(k, blocks, env, store0, p, end, s);
    match ChunkStep(k, blocks, env, p)
    case Finish(r) =>
    case Continue(q) => SavingEnded(k, blocks, env, store0, q);
  }

  /**
   * What `save_rtmp_loop` does over a whole stream: it aborts at once, with
   * the bucket untouched, exactly when the generator raises; otherwise it ends
   * as `Ended` says, and each message sent is the non-empty texts so far, one
   * per line.
   */
  lemma {:induction false} SessionEnded(k: string, blocks: seq<Block>, raises: bool, env: Services, store0: Store)
    requires Usable(env)
    ensures var r := SaveSession(k, blocks, raises, env, store0);
      && (r.stop.StreamFailed? <==> raises)
      && (raises ==> r == Saved([], [], store0, StreamFailed))
      && (!raises ==> Ended(k, blocks, env, store0, r))
      && forall i :: 0 <= i < |r.sent| ==> r.sent[i] == Join("\n", NonEmpty(Texts(env, i + 1)))
  {
    if !raises {
      assert Taken([]) == blocks[..0];
      SavingEnded(k, blocks, env, store0, Begin(store0));
      var r := SaveSession(k, blocks, raises, env, store0);
      forall i | 0 <= i < |r.sent|
        ensures r.sent[i] == Join("\n", NonEmpty(Texts(env, i + 1)))
      {
        AccumulateIsJoin(Texts(env, i + 1));
      }
    }
  }

  /**
   * The chunk loop of `save_rtmp_loop` over the generator's output: `blocks`
   * it yields, then the end of the iteration, or an exception at the first
   * `next` when `raises`.
   */
  method ChunkLoop(k: string, blocks: seq<Block>, raises: bool, env: Services, store0: Store)
    returns (posted: seq<Posted>, sent: seq<string>, store: Store, stop: Stop)
    requires Usable(env)
    ensures Saved(posted, sent, store, stop) == SaveSession(k, blocks, raises, env, store0)
  {
    if raises {
      return [], [], store0, StreamFailed;
    }
    posted, sent, store := [], [], store0;
    var started := false;
    var chunkCount: nat := 1;
    var transcript := "";
    var pos: nat := 0;                 // blocks taken from the generator so far
    var ticks: nat := 0;               // clock reads so far
    var currentTime: Option<real> := None;
    ghost var lastRead: Option<nat> := None;
    ghost var goal := Saving(k, blocks, env, Begin(store0));
    while true
      invariant pos <= |blocks|
      invariant lastRead.Some? ==> lastRead.value < ticks
      invariant currentTime == if lastRead.Some? then Some(env.clock(lastRead.value)) else None
      invariant goal ==
        Saving(k, blocks, env, Progress(pos, ticks, chunkCount, started, transcript, lastRead, store, posted, sent))
      decreases |blocks| - pos
    {
      var next;
      pos, ticks, chunkCount, started, transcript, store, posted, sent, currentTime, lastRead, next :=
        Iteration(k, blocks, env, pos, ticks, chunkCount, started, transcript, store, posted, sent, currentTime, lastRead);
      if next.Some? {
        stop := next.value;
        if Aborted(stop) {
          return;
        }
        break;
      }
    }
    store := FinishStage(k, store);
  }

  /**
   * One pass of the `while True` loop of `save_rtmp_loop`: fill a chunk from
   * the stream, then ship it. `next` is None when the loop goes on.
   */
  method Iteration(
    k: string, blocks: seq<Block>, env: Services, pos0: nat, ticks0: nat, chunkNo0: nat, started0: bool,
    transcript0: string, store0: Store, posted0: seq<Posted>, sent0: seq<string>, currentTime0: Option<real>,
    ghost lastRead0: Option<nat>)
    returns (pos: nat, ticks: nat, chunkNo: nat, started: bool, transcript: string, store: Store,
             posted: seq<Posted>, sent: seq<string>, currentTime: Option<real>, ghost lastRead: Option<nat>,
             next: Option<Stop>)
    requires Usable(env)
    requires pos0 <= |blocks|
    requires lastRead0.Some? ==> lastRead0.value < ticks0
    requires currentTime0 == if lastRead0.Some? then Some(env.clock(lastRead0.value)) else None
    ensures var r := ChunkStep(k, blocks, env,
      Progress(pos0, ticks0, chunkNo0, started0, transcript0, lastRead0, store0, posted0, sent0));
      && (next.None? ==> r == Continue(Progress(pos, ticks, chunkNo, started, transcript, lastRead, store, posted, sent)))
      && (next.Some? ==> r == Finish(Saved(posted, sent, if Aborted(next.value) then store else MarkDone(k, store), next.value)))
    ensures pos <= |blocks|
    ensures lastRead.Some? ==> lastRead.value < ticks
    ensures currentTime == if lastRead.Some? then Some(env.clock(lastRead.value)) else None
  {
    ghost var p := Progress(pos0, ticks0, chunkNo0, started0, transcript0, lastRead0, store0, posted0, sent0);
    var chunkStartTime := env.clock(ticks0);
    var chunk;
    pos, ticks, chunk, started, store, currentTime :=
      FillChunk(k, blocks, env, chunkStartTime, pos0, ticks0 + 1, started0, store0, currentTime0);
    lastRead := if pos > pos0 then Some(ticks - 1) else lastRead0;
    ghost var q := Progress(pos, ticks, chunkNo0, started, transcript0, lastRead, store, posted0, sent0);
    assert q == Filled(k, p, pos);
    chunkNo, transcript, sent, store, posted, next :=
      ShipChunk(k, env, chunkNo0, transcript0, sent0, store, posted0, chunk, currentTime, chunkStartTime);
    StepShips(k, blocks, env, p, pos, Shipped(chunkNo, transcript, sent, store, posted, next));
  }

  /** The last step of `save_rtmp_loop`: mark a non-empty stage object done. */
  method FinishStage(k: string, store0: Store) returns (store: Store)
    ensures store == MarkDone(k, store0)
  {
    store := store0;
    var key := StageKey(k);
    if key in store && store[key] != map[] {
      store := store[key := store[key]["stage" := Str(StageDone)]];
    }
  }

  /**
   * The second half of an iteration of `save_rtmp_loop`: post the chunk for
   * transcription, append the first segment's text to the transcript, send
   * it over the websocket and store it, and decide whether the loop goes on
   * (`stop` is None) or ends.
   */
  method ShipChunk(
    k: string, env: Services, chunkNo: nat, transcript0: string, sent0: seq<string>, store0: Store,
    posted0: seq<Posted>, chunk: seq<Block>, currentTime: Option<real>, chunkStartTime: real)
    returns (chunkCount: nat, transcript: string, sent: seq<string>, store: Store, posted: seq<Posted>, stop: Option<Stop>)
    ensures Shipped(chunkCount, transcript, sent, store, posted, stop) ==
      AfterFill(k, env, chunkNo, transcript0, sent0, store0, posted0, chunk, currentTime, chunkStartTime)
  {
    chunkCount, transcript, sent, store := chunkNo, transcript0, sent0, store0;
    posted := posted0 + [Posted(ChunkName(k, chunkCount), chunk)];
    var result := env.transcribe(chunkCount);
    if result.Unreachable? {
      return chunkCount, transcript, sent, store, posted, Some(TranscribeFailed);
    }
    chunkCount := chunkCount + 1;
    var text := FirstText(result.segments);
    if text != "" {
      if transcript != "" {
        transcript := transcript + "\n" + text;
      } else {
        transcript := text;
      }
    }
    if !env.sendOk(chunkCount - 1) {
      return chunkCount, transcript, sent, store, posted, Some(ClientClosed);
    }
    sent := sent + [transcript];
    store := store[TranscriptKey(k) := map["transcript" := Str(transcript)]];
    if currentTime.None? {
      return chunkCount, transcript, sent, store, posted, Some(NoClock);
    }
    if currentTime.value - chunkStartTime < env.chunkDuration as real {
      return chunkCount, transcript, sent, store, posted, Some(ShortChunk);
    }
    stop := None;
  }

  /**
   * The inner `for` loop of `save_rtmp_loop`: take blocks from position `pos0`
   * into the chunk, write the stage object at the session's first block, and
   * read the clock after each block, until the chunk is full or the stream
   * is drained.
   */
  method FillChunk(
    k: string, blocks: seq<Block>, env: Services, chunkStartTime: real,
    pos0: nat, ticks0: nat, started0: bool, store0: Store, currentTime0: Option<real>)
    returns (pos: nat, ticks: nat, chunk: seq<Block>, started: bool, store: Store, currentTime: Option<real>)
    requires pos0 <= |blocks|
    ensures pos == Fill(blocks, pos0, 0, env, ticks0, chunkStartTime)
    ensures ticks == ticks0 + (pos - pos0)
    ensures chunk == blocks[pos0..pos]
    ensures started == (started0 || pos > pos0)
    ensures store == if !started0 && pos > pos0 then MarkStarted(k, store0) else store0
    ensures currentTime == if pos > pos0 then Some(env.clock(ticks - 1)) else currentTime0
  {
    pos, ticks, chunk, started, store, currentTime := pos0, ticks0, [], started0, store0, currentTime0;
    var framesWritten := 0;
    while pos < |blocks|
      invariant pos0 <= pos <= |blocks|
      invariant ticks == ticks0 + (pos - pos0)
      invariant chunk == blocks[pos0..pos]
      invariant framesWritten == Frames(chunk)
      invariant started == (started0 || pos > pos0)
      invariant store == if !started0 && pos > pos0 then MarkStarted(k, store0) else store0
      invariant currentTime == if pos > pos0 then Some(env.clock(ticks - 1)) else currentTime0
      invariant Fill(blocks, pos0, 0, env, ticks0, chunkStartTime) ==
        Fill(blocks, pos, framesWritten, env, ticks, chunkStartTime)
      decreases |blocks| - pos
    {
      var byteData := blocks[pos];
      if !started {
        if StageKey(k) !in store {
          store := store[StageKey(k) := StartedRecord(k)];
        }
        started := true;
      }
      assert blocks[pos0..pos + 1] == chunk + [byteData];
      assert (chunk + [byteData])[..|chunk|] == chunk;
      assert Frames(chunk + [byteData]) == Frames(chunk) + |byteData| / BytesPerFrame;
      chunk := chunk + [byteData];
      framesWritten := framesWritten + |byteData| / BytesPerFrame;
      currentTime := Some(env.clock(ticks));
      pos, ticks := pos + 1, ticks + 1;
      if currentTime.value - chunkStartTime >= env.chunkDuration as real && framesWritten >= FramesPerChunk(env) {
        assert Fill(blocks, pos - 1, framesWritten - |byteData| / BytesPerFrame, env, ticks - 1, chunkStartTime) == pos;
        break;
      }
    }
  }

  /**
   * `save_rtmp_loop`: run the generator over the stream and the chunk loop
   * over what it yields.
   */
  method SaveRtmpLoop(
    k: string, opens: nat -> bool, hasAudio: bool, normalize: Packet -> seq<Block>, events: seq<Event>,
    env: Services, store0: Store)
    returns (posted: seq<Posted>, sent: seq<string>, store: Store, stop: Stop)
    requires Usable(env)
    ensures var g := Connect(opens, hasAudio, events);
      Saved(posted, sent, store, stop) == SaveSession(k, Yielded(normalize, g.admitted), g.raises, env, store0)
  {
    var blocks, raises := YieldChunksFromRtmpStream(opens, hasAudio, normalize, events);
    posted, sent, store, stop := ChunkLoop(k, blocks, raises, env, store0);
  }
}
