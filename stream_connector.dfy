/**
 * The generator `yield_chunks_from_rtmp_stream`: connect to the RTMP source,
 * demultiplex its audio packets, drop the packets that replay audio already
 * seen after a reconnection, and yield the normalized PCM byte blocks of the
 * packets let through.
 *
 * The media library is abstract: `opens(n)` says whether the n-th `av.open`
 * call (counting from 0) succeeds, `hasAudio` whether the first opened
 * container has an audio track, `normalize` is decode, resample to 16 kHz mono
 * s16 and re-encode of one packet, and the demultiplexer's output is a
 * sequence of events: a packet, or a fault (any exception raised while
 * demultiplexing or decoding, which all three handlers treat alike).
 */
module StreamConnector {
  import opened Wrappers
  import opened RetryPolicy

  type byte = bv8

  /** One `bytes(encoded_packet)` the generator yields. */
  type Block = seq<byte>

  /** An encoded audio packet and its presentation timestamp. */
  datatype Packet = Packet(pts: int, payload: seq<byte>)

  datatype Event = Arrive(packet: Packet) | Fault

  /** One `av.open(stream_url + stream_key, ...)` call in a world where `opens(n)` decides the n-th call. */
  function OpenOp(opens: nat -> bool): nat -> (Result<nat, nat>, nat) {
    u => (if opens(u) then Ok(u) else Err(u), u + 1)
  }

  /**
   * `reconnect_to_stream`: `retry_with_backoff` around `av.open`. It returns
   * the container (here: the number of the open that produced it), None when
   * the inner retry made no attempt, and raises the last open's failure.
   */
  function ReconnectOp(opens: nat -> bool): nat -> (Result<Option<nat>, nat>, nat) {
    u =>
      var (r, u', _) := Retry(OpenOp(opens), DefaultMaxAttempts, u);
      (match r
       case Returned(c) => Ok(Some(c))
       case NoAttempt => Ok(None)
       case Raised(e) => Err(e), u')
  }

  lemma {:induction false} OpenAfter(opens: nat -> bool, u: nat, i: nat)
    ensures After(OpenOp(opens), u, i) == u + i
    ensures Outcome(OpenOp(opens), u, i) == if opens(u + i) then Ok(u + i) else Err(u + i)
    decreases i
  {
    if i > 0 {
      OpenAfter(opens, u + 1, i - 1);
    }
  }

  /**
   * Retrying `av.open` `n` times succeeds exactly when one of the next `n`
   * opens succeeds, stops at the first that does, and otherwise uses up all `n`.
   */
  lemma {:induction false} OpenRetry(opens: nat -> bool, n: int, u: nat)
    requires n >= 1
    ensures var (r, u', calls) := Retry(OpenOp(opens), n, u);
      && !r.NoAttempt?
      && u' == u + calls && 1 <= calls <= n
      && (r.Returned? <==> exists k :: u <= k < u + n && opens(k))
      && (r.Returned? ==> r.value == u' - 1 && opens(u' - 1))
      && (r.Raised? ==> u' == u + n)
      && forall k :: u <= k < u' - 1 ==> !opens(k)
  {
    RetryCharacterized(OpenOp(opens), n, u);
    var (r, u', calls) := Retry(OpenOp(opens), n, u);
    OpenAfter(opens, u, calls);
    OpenAfter(opens, u, calls - 1);
    forall k | u <= k < u + calls - 1
      ensures !opens(k)
    {
      OpenAfter(opens, u, k - u);
      assert Outcome(OpenOp(opens), u, k - u).Err?;
    }
  }

  /**
   * The reconnection in the fault handlers, `retry_with_backoff(reconnect_to_stream)`,
   * retries a retry: it is three rounds of three opens, which behaves as one
   * retry of nine opens. It makes at most nine opens, succeeds exactly when one
   * of them succeeds, and stops at the first that does.
   */
  lemma {:induction false} NestedReconnectIsNineOpens(opens: nat -> bool, u: nat)
    ensures var (r, u', _) := Retry(ReconnectOp(opens), DefaultMaxAttempts, u);
      && u < u' <= u + 9
      && (r.Returned? <==> exists k :: u <= k < u + 9 && opens(k))
      && (r.Returned? ==> r.value == Some(u' - 1) && opens(u' - 1))
      && (r.Raised? ==> u' == u + 9)
      && forall k :: u <= k < u' - 1 ==> !opens(k)
  {
    Rounds(opens, 0, u);
    var res := RetryFrom<nat, Option<nat>, nat>(ReconnectOp(opens), 3, 0, u);
    assert Retry<nat, Option<nat>, nat>(ReconnectOp(opens), DefaultMaxAttempts, u) == res;
    if res.0.Returned? {
      assert u <= res.1 - 1 < u + 9 && opens(res.1 - 1);
    }
  }

  /** The reconnection attempts from attempt number `attempt` on: three opens per attempt. */
  lemma {:induction false} Rounds(opens: nat -> bool, attempt: nat, u: nat)
    requires attempt < 3
    ensures var (r, u', _) := RetryFrom(ReconnectOp(opens), 3, attempt, u);
      && u < u' <= u + 3 * (3 - attempt)
      && !r.NoAttempt?
      && (r.Returned? ==> r.value == Some(u' - 1) && opens(u' - 1))
      && (r.Raised? ==> u' == u + 3 * (3 - attempt) && forall k :: u <= k < u' ==> !opens(k))
      && forall k :: u <= k < u' - 1 ==> !opens(k)
    decreases 3 - attempt
  {
    Round(opens, u);
    var (res, ua) := ReconnectOp(opens)(u);
    if res.Err? && attempt < 2 {
      Rounds(opens, attempt + 1, ua);
    }
  }

  /** One round of the reconnection, `reconnect_to_stream` itself: up to three opens from open number `u`. */
  lemma {:induction false} Round(opens: nat -> bool, u: nat)
    ensures var (res, ua) := ReconnectOp(opens)(u);
      && u < ua <= u + 3
      && (res.Ok? ==> res.value == Some(ua - 1) && opens(ua - 1))
      && (res.Err? ==> ua == u + 3 && forall k :: u <= k < ua ==> !opens(k))
      && forall k :: u <= k < ua - 1 ==> !opens(k)
  {
    OpenRetry(opens, 3, u);
  }

  /** The state the generator keeps between packets: `current_position`, `just_reconnected`, and the opens used so far. */
  datatype Reader = Reader(position: Option<int>, justReconnected: bool, opensUsed: nat)

  /**
   * The stale-packet filter applied to each demultiplexed packet: whether the
   * packet goes on to decoding, and the reader state after it.
   */
  function Admit(rd: Reader, pts: int): (r: (bool, Reader))
    ensures rd.justReconnected && rd.position.Some? && pts <= rd.position.value ==> !r.0
    ensures !r.0 ==> r.1 == rd
    ensures r.0 ==> r.1 == Reader(Some(pts), false, rd.opensUsed)
    ensures !rd.justReconnected || rd.position.None? || pts > rd.position.value ==> r.0
  {
    if rd.justReconnected && rd.position.Some? && pts <= rd.position.value then (false, rd)
    else (true, rd.(position := Some(pts), justReconnected := false))
  }

  /**
   * One transient-fault handler: close the stream, sleep, and reconnect with
   * `retry_with_backoff(reconnect_to_stream)`. None when the generator ends,
   * because the retry raised (handler at the end of the generator) or left the
   * stream unset (the `break` after "Reconnection failed").
   */
  function Recover(opens: nat -> bool, rd: Reader): Option<Reader> {
    var (r, used, _) := Retry(ReconnectOp(opens), DefaultMaxAttempts, rd.opensUsed);
    if r.Returned? && r.value.Some? then Some(Reader(rd.position, true, used)) else None
  }

  /** The packets let through while the events last, the reader at the end, and whether the stream is still connected. */
  datatype Run = Run(admitted: seq<Packet>, reader: Reader, alive: bool)

  function Pump(opens: nat -> bool, rd: Reader, events: seq<Event>): Run
    decreases |events|
  {
    if events == [] then Run([], rd, true)
    else match events[0]
      case Arrive(p) =>
        var (ok, rd') := Admit(rd, p.pts);
        var run := Pump(opens, rd', events[1..]);
        if ok then run.(admitted := [p] + run.admitted) else run
      case Fault =>
        match Recover(opens, rd)
        case None => Run([], rd, false)
        case Some(rd') => Pump(opens, rd', events[1..])
  }

  /** What the generator does with its input: the packets it decodes, and whether it raises to its consumer. */
  datatype Session = Session(admitted: seq<Packet>, raises: bool)

  function Connect(opens: nat -> bool, hasAudio: bool, events: seq<Event>): Session {
    var (r, used, _) := Retry(OpenOp(opens), DefaultMaxAttempts, 0);
    match r
    case Raised(_) => Session([], true)
    case NoAttempt => Session([], false)
    case Returned(_) =>
      if !hasAudio then Session([], false)
      else Session(Pump(opens, Reader(None, true, used), events).admitted, false)
  }

  /** The blocks yielded for a sequence of decoded packets, in packet order. */
  function Yielded(normalize: Packet -> seq<Block>, packets: seq<Packet>): seq<Block>
    decreases |packets|
  {
    if packets == [] then []
    else Yielded(normalize, packets[..|packets| - 1]) + normalize(packets[|packets| - 1])
  }

  lemma {:induction false} YieldedAppend(normalize: Packet -> seq<Block>, packets: seq<Packet>, p: Packet)
    ensures Yielded(normalize, packets + [p]) == Yielded(normalize, packets) + normalize(p)
  {
    assert (packets + [p])[..|packets|] == packets;
  }

  /**
   * The generator. `blocks` is everything it yields, in order; `raises` says
   * whether the consumer then sees an exception instead of the end of the
   * iteration.
   */
  method YieldChunksFromRtmpStream(
    opens: nat -> bool, hasAudio: bool, normalize: Packet -> seq<Block>, events: seq<Event>)
    returns (blocks: seq<Block>, raises: bool)
    ensures blocks == Yielded(normalize, Connect(opens, hasAudio, events).admitted)
    ensures raises == Connect(opens, hasAudio, events).raises
  {
    var first, used, _, _ := RetryWithBackoff(OpenOp(opens), DefaultMaxAttempts, 0);
    if first.Raised? {
      return [], true;
    }
    if first.NoAttempt? || !hasAudio {
      return [], false;
    }
    blocks := DemuxLoop(opens, normalize, Reader(None, true, used), events);
    raises := false;
  }

  lemma {:induction false} PumpArrive(opens: nat -> bool, rd: Reader, events: seq<Event>)
    requires events != [] && events[0].Arrive?
    ensures var (ok, rd') := Admit(rd, events[0].packet.pts);
      Pump(opens, rd, events).admitted ==
        (if ok then [events[0].packet] else []) + Pump(opens, rd', events[1..]).admitted
  {
  }

  lemma {:induction false} PumpFault(opens: nat -> bool, rd: Reader, events: seq<Event>)
    requires events != [] && events[0].Fault?
    ensures Pump(opens, rd, events).admitted ==
      match Recover(opens, rd)
      case None => []
      case Some(rd') => Pump(opens, rd', events[1..]).admitted
  {
  }

  /**
   * The generator's `while True` loop over the demultiplexed events, starting
   * from reader state `start`: filter, decode and yield each packet, and
   * reconnect after each fault.
   */
  method DemuxLoop(opens: nat -> bool, normalize: Packet -> seq<Block>, start: Reader, events: seq<Event>)
    returns (blocks: seq<Block>)
    ensures blocks == Yielded(normalize, Pump(opens, start, events).admitted)
  {
    blocks := [];
    var currentPosition, justReconnected, opensUsed := start.position, start.justReconnected, start.opensUsed;
    ghost var admitted: seq<Packet> := [];
    var i := 0;
    while i < |events|
      invariant 0 <= i <= |events|
      invariant Pump(opens, start, events).admitted ==
        admitted + Pump(opens, Reader(currentPosition, justReconnected, opensUsed), events[i..]).admitted
      invariant blocks == Yielded(normalize, admitted)
    {
      ghost var rd := Reader(currentPosition, justReconnected, opensUsed);
      ghost var rest := events[i..];
      assert rest[1..] == events[i + 1..];
      if events[i].Fault? {
        PumpFault(opens, rd, rest);
        var next := Reconnect(opens, Reader(currentPosition, justReconnected, opensUsed));
        if next.None? {
          assert admitted + [] == admitted;
          return;
        }
        opensUsed := next.value.opensUsed;
        justReconnected := true;
      } else {
        var packet := events[i].packet;
        PumpArrive(opens, rd, rest);
        if justReconnected {
          if currentPosition.Some? && packet.pts <= currentPosition.value {
            i := i + 1;
            continue;
          }
          justReconnected := false;
        }
        currentPosition := Some(packet.pts);
        YieldedAppend(normalize, admitted, packet);
        blocks := EmitPacket(normalize, packet, blocks);
        admitted := admitted + [packet];
      }
      i := i + 1;
    }
    assert events[i..] == [];
    assert admitted + [] == admitted;
  }

  /**
   * The handler for a fault in the packet loop: reconnect with
   * `retry_with_backoff(reconnect_to_stream)`; the reader resumes from where
   * it stopped, or the generator ends.
   */
  method Reconnect(opens: nat -> bool, rd: Reader) returns (next: Option<Reader>)
    ensures next == Recover(opens, rd)
  {
    var r, used, _, _ := RetryWithBackoff(ReconnectOp(opens), DefaultMaxAttempts, rd.opensUsed);
    if r.Returned? && r.value.Some? {
      next := Some(Reader(rd.position, true, used));
    } else {
      next := None;
    }
  }

  /** Decode, resample and re-encode one packet, yielding each encoded block after those yielded before. */
  method EmitPacket(normalize: Packet -> seq<Block>, packet: Packet, before: seq<Block>) returns (blocks: seq<Block>)
    ensures blocks == before + normalize(packet)
  {
    blocks := before;
    var out := normalize(packet);
    for k := 0 to |out|
      invariant blocks == before + out[..k]
    {
      assert out[..k + 1] == out[..k] + [out[k]];
      blocks := blocks + [out[k]];
    }
    assert out[..|out|] == out;
  }

  /** Packet timestamps, in order. */
  function Timestamps(packets: seq<Packet>): (r: seq<int>)
    ensures |r| == |packets| && forall k :: 0 <= k < |packets| ==> r[k] == packets[k].pts
  {
    seq(|packets|, k requires 0 <= k < |packets| => packets[k].pts)
  }

  /**
   * A run ends disconnected exactly through a reconnection that exhausted its
   * attempts: a fault occurred, and all nine opens tried from the final reader
   * failed. Without a fault, or when every open succeeds, it stays connected.
   */
  lemma {:induction false} PumpDisconnected(opens: nat -> bool, rd: Reader, events: seq<Event>)
    ensures var run := Pump(opens, rd, events);
      !run.alive ==>
        Fault in events && forall k :: run.reader.opensUsed <= k < run.reader.opensUsed + 9 ==> !opens(k)
    ensures Fault !in events ==> Pump(opens, rd, events).alive
    ensures (forall k :: opens(k)) ==> Pump(opens, rd, events).alive
    decreases |events|
  {
    if events != [] {
      assert events == [events[0]] + events[1..];
      match events[0]
      case Arrive(p) =>
        PumpDisconnected(opens, Admit(rd, p.pts).1, events[1..]);
      case Fault =>
        NestedReconnectIsNineOpens(opens, rd.opensUsed);
        if Recover(opens, rd).Some? {
          PumpDisconnected(opens, Recover(opens, rd).value, events[1..]);
        }
    }
  }

  /** `current_position` is the timestamp of the last packet let through, or what it was when none was. */
  lemma {:induction false} PumpTracksPosition(opens: nat -> bool, rd: Reader, events: seq<Event>)
    ensures var run := Pump(opens, rd, events);
      run.reader.position == if run.admitted == [] then rd.position else Some(run.admitted[|run.admitted| - 1].pts)
    decreases |events|
  {
    if events != [] {
      match events[0]
      case Arrive(p) =>
        PumpTracksPosition(opens, Admit(rd, p.pts).1, events[1..]);
      case Fault =>
        if Recover(opens, rd).Some? {
          PumpTracksPosition(opens, Recover(opens, rd).value, events[1..]);
        }
    }
  }

  /**
   * After a reconnection, the first packet that reaches decoding is strictly
   * newer than the position recorded before the drop, however many further
   * drops and reconnections happen before it.
   */
  lemma {:induction false} NoStalePacketAfterReconnect(opens: nat -> bool, rd: Reader, events: seq<Event>)
    requires rd.justReconnected && rd.position.Some?
    ensures var run := Pump(opens, rd, events);
      run.admitted != [] ==> run.admitted[0].pts > rd.position.value
    decreases |events|
  {
    if events != [] {
      match events[0]
      case Arrive(p) =>
        var (ok, rd') := Admit(rd, p.pts);
        if !ok {
          NoStalePacketAfterReconnect(opens, rd', events[1..]);
        }
      case Fault =>
        if Recover(opens, rd).Some? {
          NoStalePacketAfterReconnect(opens, Recover(opens, rd).value, events[1..]);
        }
    }
  }

  /** Within one connection (no fault between them) consecutive packets have increasing timestamps. */
  ghost predicate SegmentsIncreasing(events: seq<Event>) {
    forall k :: 0 <= k < |events| - 1 && events[k].Arrive? && events[k + 1].Arrive? ==>
      events[k].packet.pts < events[k + 1].packet.pts
  }

  ghost predicate StrictlyIncreasing(xs: seq<int>) {
    forall i, j :: 0 <= i < j < |xs| ==> xs[i] < xs[j]
  }

  /**
   * If the source delivers increasing timestamps within each connection, the
   * packets let through have strictly increasing timestamps across
   * reconnections: no audio is decoded twice, and each is newer than the
   * position the run started from.
   */
  lemma {:induction false} PumpIncreasing(opens: nat -> bool, rd: Reader, events: seq<Event>)
    requires SegmentsIncreasing(events)
    requires !rd.justReconnected ==>
      rd.position.Some? && (events != [] && events[0].Arrive? ==> events[0].packet.pts > rd.position.value)
    ensures var ts := Timestamps(Pump(opens, rd, events).admitted);
      && StrictlyIncreasing(ts)
      && (rd.position.Some? ==> forall k :: 0 <= k < |ts| ==> ts[k] > rd.position.value)
    decreases |events|
  {
    if events != [] {
      assert SegmentsIncreasing(events[1..]);
      match events[0]
      case Arrive(p) =>
        var (ok, rd') := Admit(rd, p.pts);
        PumpIncreasing(opens, rd', events[1..]);
      case Fault =>
        if Recover(opens, rd).Some? {
          PumpIncreasing(opens, Recover(opens, rd).value, events[1..]);
        }
    }
  }

  /**
   * A session whose source delivers increasing timestamps within each
   * connection decodes every packet at most once, in timestamp order, whatever
   * replay the reconnections cause.
   */
  lemma {:induction false} NoDuplicateAudio(opens: nat -> bool, hasAudio: bool, events: seq<Event>)
    requires SegmentsIncreasing(events)
    ensures StrictlyIncreasing(Timestamps(Connect(opens, hasAudio, events).admitted))
  {
    var (r, used, _) := Retry(OpenOp(opens), DefaultMaxAttempts, 0);
    if r.Returned? && hasAudio {
      PumpIncreasing(opens, Reader(None, true, used), events);
    }
  }
}
