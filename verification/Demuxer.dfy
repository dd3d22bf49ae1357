/**
  run_demuxer() of src/codec/demuxer.cpp: codec header, packets, merger, sinks. The method works on
  buffers and objects and meets failures anywhere; its contract ties every run to functions on the
  bytes of the stream; EndToEnd says what they leave in a file.
 */
module Demuxer {
  import opened Wrappers
  import opened Bits
  import opened Framing
  import opened Environment
  import opened Codecs
  import opened Merging
  import opened PacketSource

  datatype Status = EOS | DISABLED | ERROR

  /** A socket whose peer will still deliver `rest`. */
  class Socket {
    var rest: seq<byte>

    constructor (bytes: seq<byte>)
      ensures rest == bytes
    {
      rest := bytes;
    }

    /** net_recv_all(): as many bytes as were asked for or are left, or -1. */
    method RecvAll(buf: array<byte>, env: Env) returns (r: int)
      modifies this, buf, env
      ensures r == -1 || 0 <= r <= buf.Length
      ensures r == -1 ==> env.faults == old(env.faults) + 1 && rest == old(rest)
      ensures r != -1 ==>
        && env.faults == old(env.faults)
        && r == (if |old(rest)| < buf.Length then |old(rest)| else buf.Length)
        && buf[..r] == old(rest)[..r] && rest == old(rest)[r..]
    {
      var ok := env.Try();
      if !ok {
        return -1;
      }
      r := if |rest| < buf.Length then |rest| else buf.Length;
      forall i | 0 <= i < r {
        buf[i] := rest[i];
      }
      rest := rest[r..];
    }
  }

  /** A 32-bit word from the socket: the codec id. */
  method RecvCodecId(socket: Socket, env: Env) returns (ok: bool, id: nat)
    modifies socket, env
    ensures ok ==> env.faults == old(env.faults) && |old(socket.rest)| >= 4
    ensures ok ==> id == BigEndian(old(socket.rest)[..4]) && socket.rest == old(socket.rest)[4..]
    ensures !ok ==> env.faults > old(env.faults) || |old(socket.rest)| < 4
  {
    id := 0;
    var data := new byte[4];
    var r := socket.RecvAll(data, env);
    if r < 4 {
      return false, 0;
    }
    id := Read32be(data[..]);
    Read32beIsBigEndian(data[..]);
    assert data[..] == old(socket.rest)[..4];
    ok := true;
  }

  method RecvVideoSize(socket: Socket, env: Env) returns (ok: bool, width: nat, height: nat)
    modifies socket, env
    ensures ok ==> env.faults == old(env.faults) && |old(socket.rest)| >= 8
    ensures ok ==> width == BigEndian(old(socket.rest)[..4]) && height == BigEndian(old(socket.rest)[4..8])
    ensures ok ==> socket.rest == old(socket.rest)[8..]
    ensures !ok ==> env.faults > old(env.faults) || |old(socket.rest)| < 8
  {
    width, height := 0, 0;
    var data := new byte[8];
    var r := socket.RecvAll(data, env);
    if r < 8 {
      return false, 0, 0;
    }
    assert data[..] == old(socket.rest)[..8];
    assert data[..4] == old(socket.rest)[..4] && data[4..8] == old(socket.rest)[4..8];
    width := Read32be(data[..4]);
    height := Read32be(data[4..8]);
    Read32beIsBigEndian(data[..4]);
    Read32beIsBigEndian(data[4..8]);
    ok := true;
  }

  method RecvHeader(socket: Socket, env: Env) returns (ok: bool, ptsFlags: nat, len: nat)
    modifies socket, env
    ensures ok ==> env.faults == old(env.faults) && |old(socket.rest)| >= HEADER_SIZE
    ensures ok ==> ptsFlags == BigEndian(old(socket.rest)[..8]) && Some(len) == NextLength(old(socket.rest))
    ensures ok ==> socket.rest == old(socket.rest)[HEADER_SIZE..]
    ensures !ok ==> env.faults > old(env.faults) || |old(socket.rest)| < HEADER_SIZE
  {
    ptsFlags, len := 0, 0;
    var header := new byte[HEADER_SIZE];
    var r := socket.RecvAll(header, env);
    if r < HEADER_SIZE {
      return false, 0, 0;
    }
    assert header[..] == old(socket.rest)[..12];
    assert header[..8] == old(socket.rest)[..8] && header[8..12] == old(socket.rest)[8..12];
    ptsFlags := Read64be(header[..8]);
    len := Read32be(header[8..12]);
    Read64beIsBigEndian(header[..8]);
    Read32beIsBigEndian(header[8..12]);
    ok := true;
  }

  /** The buffer of a packet from the socket. */
  method RecvPayload(socket: Socket, packet: AvPacket, len: nat, env: Env) returns (ok: bool)
    modifies socket, packet`data, env
    ensures fresh(packet.data)
    ensures ok ==> env.faults == old(env.faults) && |old(socket.rest)| >= len
    ensures ok ==> packet.data[..] == old(socket.rest)[..len] && socket.rest == old(socket.rest)[len..]
    ensures !ok ==> env.faults > old(env.faults) || |old(socket.rest)| < len
  {
    packet.data := new byte[len];
    var r := socket.RecvAll(packet.data, env);
    ok := 0 <= r && len <= r;
  }

  method SetFlags(packet: AvPacket, ptsFlags: nat)
    requires !packet.key
    modifies packet`pts, packet`dts, packet`key
    ensures packet.pts == packet.dts == WordPts(ptsFlags) && packet.key == WordKey(ptsFlags)
  {
    if And(ptsFlags, FLAG_CONFIG) != 0 {
      packet.pts := NOPTS;
    } else {
      packet.pts := And(ptsFlags, PTS_MASK);
    }
    if And(ptsFlags, FLAG_KEY_FRAME) != 0 {
      packet.key := true;
    }
    packet.dts := packet.pts;
  }

  /** Reads one packet into place; it fails at the end of the stream or on a fault. */
  method RecvPacket(socket: Socket, packet: AvPacket, env: Env) returns (ok: bool)
    requires NextLength(socket.rest) != Some(0)
    modifies socket, packet, env
    ensures fresh(packet.data) || packet.data == old(packet.data)
    ensures ok ==> env.faults == old(env.faults) && Decode(old(socket.rest)) == Some(packet.View())
    ensures ok ==> socket.rest == old(socket.rest)[Consumed(old(socket.rest))..]
    ensures !ok ==> env.faults > old(env.faults) || Decode(old(socket.rest)) == None
  {
    ghost var s := socket.rest;
    var ptsFlags, len;
    ok, ptsFlags, len := RecvHeader(socket, env);
    if !ok {
      return;
    }
    assert len != 0;  // the source asserts this
    // av_new_packet() also resets pts and flags
    ok := env.Try();
    if !ok {
      return;
    }
    packet.pts, packet.dts, packet.key := NOPTS, NOPTS, false;
    ok := RecvPayload(socket, packet, len, env);
    if !ok {
      return;
    }
    SetFlags(packet, ptsFlags);
    DecodeIs(s, len);
  }

  lemma DecodeIs(s: seq<byte>, len: nat)
    requires NextLength(s) == Some(len) && |s| >= HEADER_SIZE + len
    ensures var word, pts := BigEndian(s[..8]), WordPts(BigEndian(s[..8]));
      Decode(s) == Some(Packet(pts, pts, WordKey(word), s[HEADER_SIZE..][..len]))
    ensures s[Consumed(s)..] == s[HEADER_SIZE..][len..]
  {
    Skip(s, HEADER_SIZE, len);
  }

  lemma Skip(s: seq<byte>, i: nat, n: nat)
    requires i + n <= |s|
    ensures s[i..][..n] == s[i..i + n] && s[i..][n..] == s[i + n..]
  {
  }

  // ----- what a stream means

  function CodecId(s: seq<byte>): Option<nat> {
    if |s| < 4 then None else Some(BigEndian(s[..4]))
  }

  /** Where the packets start; None if the demuxer never gets there even without a fault. */
  function Body(s: seq<byte>, hasAv1: bool): Option<seq<byte>> {
    match CodecId(s)
    case None => None
    case Some(id) =>
      var codec := ToAvCodec(id, hasAv1);
      if codec.AvNone? || (IsVideo(codec) && |s| < 12) then None
      else Some(s[if IsVideo(codec) then 12 else 4..])
  }

  function MustMerge(id: nat): bool {
    id == ID_H264 || id == ID_H265
  }

  /** The packets to push, in order, of a stream that is read to its end. */
  function Stream(s: seq<byte>, hasAv1: bool): seq<Packet> {
    match Body(s, hasAv1)
    case None => []
    case Some(body) => Pushed(MustMerge(CodecId(s).value), None, body)
  }

  function Pushed(mustMerge: bool, pending: Option<seq<byte>>, body: seq<byte>): seq<Packet> {
    if mustMerge then MergeAll(pending, DecodeAll(body)) else DecodeAll(body)
  }

  /** The outcome and the status when nothing fails. */
  function FaultFree(s: seq<byte>, hasAv1: bool): (Outcome, Status) {
    match CodecId(s)
    case None => (Untouched, ERROR)
    case Some(id) =>
      if id == ID_DISABLED then (Disabled, DISABLED)
      else if id == ID_CONFIG_ERROR then (Untouched, ERROR)
      else if ToAvCodec(id, hasAv1).AvNone? then (Disabled, ERROR)
      else if Body(s, hasAv1) == None then (Untouched, ERROR)
      else (Streamed(Stream(s, hasAv1), None), EOS)
  }

  /** The packets of a stream from after the codec id; None if its video size is cut. */
  function CodecStream(id: nat, codec: AvCodec, s: seq<byte>): Option<seq<Packet>> {
    if IsVideo(codec) && |s| < 8 then None
    else Some(Pushed(MustMerge(id), None, if IsVideo(codec) then s[8..] else s))
  }

  lemma StreamBehindId(s: seq<byte>, id: nat, codec: AvCodec, hasAv1: bool)
    requires CodecId(s) == Some(id) && codec == ToAvCodec(id, hasAv1) && !codec.AvNone?
    ensures Body(s, hasAv1).Some? <==> CodecStream(id, codec, s[4..]).Some?
    ensures Body(s, hasAv1).Some? ==> CodecStream(id, codec, s[4..]) == Some(Stream(s, hasAv1))
  {
    if |s| >= 12 {
      Skip(s, 4, 8);
    }
  }

  /** Whatever fails, what is pushed is a prefix of what the stream holds. */
  ghost predicate Faithful(stream: Option<seq<Packet>>, n: nat, o: Outcome, status: Status) {
    && Possible(n, o) && status != DISABLED
    && (status == EOS ==> o.Streamed? && o.broken == None)
    && match o
       case Streamed(ps, None) => stream.Some? && ps <= stream.value
       case Streamed(ps, Some((_, p))) => stream.Some? && ps + [p] <= stream.value && status == ERROR
       case _ => true
  }

  /** What holds of a run with any faults. */
  ghost predicate FaithfulRun(s: seq<byte>, hasAv1: bool, n: nat, o: Outcome, status: Status) {
    if CodecId(s) == Some(ID_DISABLED) && o == Disabled then status == DISABLED
    else Faithful(if Body(s, hasAv1).Some? then Some(Stream(s, hasAv1)) else None, n, o, status)
  }

  /** The first call that failed; NextPacket(_) are those for a packet, RefusedBy(k) the push to sink k. */
  datatype Failure =
    | NoFailure | CodecIdRecv | DecoderSearch | ContextAlloc | VideoSizeRecv | CodecOpen | SinkOpen(k: nat)
    | PacketAlloc | PacketRecv | PacketMerge | RefusedBy(k: nat)

  /**
    How a run ends after a failure: only a missing decoder disables the sinks, and whatever fails while a
    packet is received is reported as the end of the stream.
   */
  ghost predicate EndsAfter(f: Failure, o: Outcome, status: Status) {
    match f
    case NoFailure => true
    case DecoderSearch => o == Disabled && status == ERROR
    case SinkOpen(k) => o == OpenFailed(k) && status == ERROR
    case PacketAlloc => o == Streamed([], None) && status == ERROR
    case PacketRecv => o.Streamed? && o.broken == None && status == EOS
    case PacketMerge => o.Streamed? && o.broken == None && status == ERROR
    case RefusedBy(k) => o.Streamed? && o.broken.Some? && o.broken.value.0 == k && status == ERROR
    case _ => o == Untouched && status == ERROR
  }

  /** How the loop over packets ends. */
  ghost predicate LoopEnds(f: Failure, broken: Option<(nat, Packet)>, status: Status) {
    match f
    case NoFailure => true
    case PacketRecv => broken == None && status == EOS
    case PacketMerge => broken == None && status == ERROR
    case RefusedBy(k) => broken.Some? && broken.value.0 == k && status == ERROR
    case _ => false
  }

  class Demux {
    const hasAv1: bool
    const socket: Socket
    const source: Source
    var ended: seq<Status>   // the statuses reported by on_ended()

    constructor (socket: Socket, source: Source, hasAv1: bool)
      ensures this.socket == socket && this.source == source && this.hasAv1 == hasAv1 && ended == []
    {
      this.socket, this.source, this.hasAv1, ended := socket, source, hasAv1, [];
    }

    /** Reports the end exactly once, whatever happens before. */
    method RunDemuxer(env: Env) returns (ghost o: Outcome, ghost failure: Failure)
      requires source.sinkCount > 0
      requires Body(socket.rest, hasAv1).Some? ==> NoEmptyPacket(Body(socket.rest, hasAv1).value)
      modifies this, socket, source`log, env
      ensures |ended| == |old(ended)| + 1 && ended[..|old(ended)|] == old(ended)
      ensures source.log == old(source.log) + RunLog(source.sinkCount, o)
      ensures FaithfulRun(old(socket.rest), hasAv1, source.sinkCount, o, ended[|old(ended)|])
      ensures failure == NoFailure <==> env.faults == old(env.faults)
      ensures EndsAfter(failure, o, ended[|old(ended)|])
      ensures failure == NoFailure ==> (o, ended[|old(ended)|]) == FaultFree(old(socket.rest), hasAv1)
    {
      var status;
      status, o, failure := RunStream(env);
      ended := ended + [status];
    }

    /** Everything up to the `end` label. */
    method RunStream(env: Env) returns (status: Status, ghost o: Outcome, ghost failure: Failure)
      requires source.sinkCount > 0
      requires Body(socket.rest, hasAv1).Some? ==> NoEmptyPacket(Body(socket.rest, hasAv1).value)
      modifies socket, source`log, env
      ensures source.log == old(source.log) + RunLog(source.sinkCount, o)
      ensures FaithfulRun(old(socket.rest), hasAv1, source.sinkCount, o, status)
      ensures failure == NoFailure <==> env.faults == old(env.faults)
      ensures EndsAfter(failure, o, status)
      ensures failure == NoFailure ==> (o, status) == FaultFree(old(socket.rest), hasAv1)
    {
      status, o, failure := ERROR, Untouched, NoFailure;
      var ok, id := RecvCodecId(socket, env);
      if !ok {
        failure := if env.faults == old(env.faults) then NoFailure else CodecIdRecv;
        return;
      }
      if id == ID_DISABLED {
        source.DisableSinks();
        return DISABLED, Disabled, NoFailure;
      }
      if id == ID_CONFIG_ERROR {
        return;
      }
      var codec := ToAvCodec(id, hasAv1);
      if codec.AvNone? {
        source.DisableSinks();
        return ERROR, Disabled, NoFailure;
      }
      ok := env.Try();  // avcodec_find_decoder()
      if !ok {
        source.DisableSinks();
        return ERROR, Disabled, DecoderSearch;
      }
      status, o, failure := RunCodec(id, codec, env);
      StreamBehindId(old(socket.rest), id, codec, hasAv1);
    }

    /** From the allocation of the codec context on. */
    method RunCodec(id: nat, codec: AvCodec, env: Env)
      returns (status: Status, ghost o: Outcome, ghost failure: Failure)
      requires source.sinkCount > 0
      requires IsVideo(codec) && |socket.rest| >= 8 ==> NoEmptyPacket(socket.rest[8..])
      requires !IsVideo(codec) ==> NoEmptyPacket(socket.rest)
      modifies socket, source`log, env
      ensures source.log == old(source.log) + RunLog(source.sinkCount, o)
      ensures !o.Disabled? && Faithful(CodecStream(id, codec, old(socket.rest)), source.sinkCount, o, status)
      ensures failure == NoFailure <==> env.faults == old(env.faults)
      ensures EndsAfter(failure, o, status)
      ensures failure == NoFailure ==>
        (o, status) == match CodecStream(id, codec, old(socket.rest))
                       case None => (Untouched, ERROR)
                       case Some(ps) => (Streamed(ps, None), EOS)
    {
      status, o, failure := ERROR, Untouched, ContextAlloc;
      var ok := env.Try();  // avcodec_alloc_context3()
      if !ok {
        return;
      }
      if IsVideo(codec) {
        var width, height;
        ok, width, height := RecvVideoSize(socket, env);
        if !ok {
          failure := if env.faults == old(env.faults) then NoFailure else VideoSizeRecv;
          return;
        }
      }
      ok := env.Try();  // avcodec_open2()
      if !ok {
        failure := CodecOpen;
        return;
      }
      status, o, failure := StreamToSinks(MustMerge(id), env);
    }

    /** From the opening of the sinks to their closing. */
    method StreamToSinks(mustMerge: bool, env: Env)
      returns (status: Status, ghost o: Outcome, ghost failure: Failure)
      requires source.sinkCount > 0 && NoEmptyPacket(socket.rest)
      modifies socket, source`log, env
      ensures source.log == old(source.log) + RunLog(source.sinkCount, o)
      ensures !o.Disabled? && Faithful(Some(Pushed(mustMerge, None, old(socket.rest))), source.sinkCount, o, status)
      ensures failure == NoFailure <==> env.faults == old(env.faults)
      ensures EndsAfter(failure, o, status)
      ensures failure == NoFailure ==>
        o == Streamed(Pushed(mustMerge, None, old(socket.rest)), None) && status == EOS
    {
      ghost var failed;
      var ok;
      ok, failed := source.OpenSinks(env);
      if !ok {
        return ERROR, OpenFailed(failed), SinkOpen(failed);
      }
      status, o, failure := ERROR, Streamed([], None), PacketAlloc;
      ok := env.Try();  // av_packet_alloc()
      if ok {
        status, o, failure := PacketLoop(mustMerge, env);
      }
      source.CloseSinks();
      LogOfStreamed(old(source.log), source.sinkCount, o);
    }

    /** The loop over packets. */
    method PacketLoop(mustMerge: bool, env: Env) returns (status: Status, ghost o: Outcome, ghost failure: Failure)
      requires source.sinkCount > 0 && NoEmptyPacket(socket.rest)
      modifies socket, source`log, env
      ensures o.Streamed?
      ensures source.log == old(source.log) + PushesLog(source.sinkCount, o.pushed) + BrokenLog(o.broken)
      ensures Faithful(Some(Pushed(mustMerge, None, old(socket.rest))), source.sinkCount, o, status)
      ensures failure == NoFailure <==> env.faults == old(env.faults)
      ensures EndsAfter(failure, o, status)
      ensures failure == NoFailure ==>
        o == Streamed(Pushed(mustMerge, None, old(socket.rest)), None) && status == EOS
    {
      var merger := new Merger();
      var packet := new AvPacket();
      ghost var all, n := Pushed(mustMerge, None, socket.rest), source.sinkCount;
      ghost var done: seq<Packet> := [];
      while true
        invariant fresh(merger) && fresh(packet) && fresh(packet.data)
        invariant merger.config != packet.data && (merger.config != null ==> fresh(merger.config))
        invariant NoEmptyPacket(socket.rest) && env.faults == old(env.faults)
        invariant source.log == old(source.log) + PushesLog(n, done)
        invariant all == done + Pushed(mustMerge, merger.Pending(), socket.rest)
        decreases |socket.rest|
      {
        var more;
        ghost var p, broken;
        ghost var beforeTurn := Pushed(mustMerge, merger.Pending(), socket.rest);
        more, status, p, broken, failure := OnePacket(mustMerge, merger, packet, env);
        if !more {
          EndOfLoop(all, done, beforeTurn, n, broken, status, failure);
          return status, Streamed(done, broken), failure;
        }
        PushedOne(old(source.log), n, done, p, Pushed(mustMerge, merger.Pending(), socket.rest));
        done := done + [p];
      }
    }

    /** One turn of the loop: a packet is received, merged and handed to the sinks. */
    method OnePacket(mustMerge: bool, merger: Merger, packet: AvPacket, env: Env)
      returns (more: bool, status: Status, ghost p: Packet, ghost broken: Option<(nat, Packet)>,
               ghost failure: Failure)
      requires source.sinkCount > 0 && NoEmptyPacket(socket.rest) && merger.config != packet.data
      modifies socket, source`log, merger, packet, env
      ensures merger.config != packet.data
      ensures merger.config == null || merger.config == old(merger.config) || fresh(merger.config)
      ensures packet.data == old(packet.data) || fresh(packet.data)
      ensures more ==> env.faults == old(env.faults) && NoEmptyPacket(socket.rest) && |socket.rest| < |old(socket.rest)|
      ensures more ==>
        Pushed(mustMerge, old(merger.Pending()), old(socket.rest)) ==
        [p] + Pushed(mustMerge, merger.Pending(), socket.rest)
      ensures more ==> source.log == old(source.log) + PushLog(source.sinkCount, p)
      ensures !more ==> source.log == old(source.log) + BrokenLog(broken)
      ensures !more ==> (failure == NoFailure <==> env.faults == old(env.faults))
      ensures !more ==> LoopEnds(failure, broken, status)
      ensures !more && failure == NoFailure ==>
        status == EOS && broken == None && Pushed(mustMerge, old(merger.Pending()), old(socket.rest)) == []
      ensures !more ==> status != DISABLED && (status == EOS ==> broken == None)
      ensures !more && broken.Some? ==>
        && status == ERROR && broken.value.0 < source.sinkCount
        && [broken.value.1] <= Pushed(mustMerge, old(merger.Pending()), old(socket.rest))
    {
      var ok, atEnd;
      ghost var received;
      ok, atEnd, received := NextPacket(mustMerge, socket, merger, packet, env);
      p, broken, failure := packet.View(), None, NoFailure;
      if !ok {
        status := if atEnd then EOS else ERROR;
        failure := if received != old(env.faults) then PacketRecv
                   else if env.faults != received then PacketMerge else NoFailure;
        return false, status, p, broken, failure;
      }
      ghost var failed;
      ok, failed := source.PushPacket(Packet(packet.pts, packet.dts, packet.key, packet.data[..]), env);
      if !ok {
        return false, ERROR, p, Some((failed, p)), RefusedBy(failed);
      }
      more, status := true, ERROR;
    }
  }

  lemma LogOfStreamed(log: seq<Event>, n: nat, o: Outcome)
    requires o.Streamed?
    ensures log + OpenLog(n) + PushesLog(n, o.pushed) + BrokenLog(o.broken) + CloseLog(n) == log + RunLog(n, o)
  {
    Assoc(log, OpenLog(n), PushesLog(n, o.pushed), BrokenLog(o.broken), CloseLog(n));
  }

  /** The loop ends before everything is done: what is done is a prefix, the refused packet comes next. */
  lemma EndOfLoop(all: seq<Packet>, done: seq<Packet>, rest: seq<Packet>, n: nat,
                  broken: Option<(nat, Packet)>, status: Status, failure: Failure)
    requires all == done + rest && status != DISABLED && (status == EOS ==> broken == None)
    requires broken.Some? ==> status == ERROR && broken.value.0 < n && [broken.value.1] <= rest
    requires LoopEnds(failure, broken, status)
    ensures EndsAfter(failure, Streamed(done, broken), status)
    ensures Faithful(Some(all), n, Streamed(done, broken), status)
    ensures rest == [] ==> done == all
  {
    if broken.Some? {
      assert rest[0] == broken.value.1;
    }
  }

  /** One packet moves from what is still to come to what is done, and to the log. */
  lemma PushedOne(log: seq<Event>, n: nat, done: seq<Packet>, p: Packet, rest: seq<Packet>)
    ensures log + PushesLog(n, done) + PushLog(n, p) == log + PushesLog(n, done + [p])
    ensures done + ([p] + rest) == done + [p] + rest
  {
    PushesLogSnoc(n, done, p);
    assert log + PushesLog(n, done) + PushLog(n, p) == log + (PushesLog(n, done) + PushLog(n, p));
  }

  /** Receives and merges: the packet is the next one to push. `received` counts the faults before the merging. */
  method NextPacket(mustMerge: bool, socket: Socket, merger: Merger, packet: AvPacket, env: Env)
    returns (ok: bool, atEnd: bool, ghost received: nat)
    requires NoEmptyPacket(socket.rest) && merger.config != packet.data
    modifies socket, merger, packet, env
    ensures merger.config != packet.data
    ensures merger.config == null || merger.config == old(merger.config) || fresh(merger.config)
    ensures packet.data == old(packet.data) || fresh(packet.data)
    ensures ok ==> env.faults == old(env.faults) && NoEmptyPacket(socket.rest) && |socket.rest| < |old(socket.rest)|
    ensures ok ==>
      Pushed(mustMerge, old(merger.Pending()), old(socket.rest)) ==
      [packet.View()] + Pushed(mustMerge, merger.Pending(), socket.rest)
    ensures !ok ==> (atEnd <==> received != old(env.faults) || env.faults == old(env.faults))
    ensures !ok && env.faults == old(env.faults) ==>
      received == env.faults && Pushed(mustMerge, old(merger.Pending()), old(socket.rest)) == []
  {
    ghost var pending, s := merger.Pending(), socket.rest;
    atEnd := false;
    ok := RecvPacket(socket, packet, env);
    received := env.faults;
    if !ok {
      return false, true, received;
    }
    PushedStep(mustMerge, pending, s);
    if mustMerge {
      ok := merger.Merge(packet, env);
    }
  }

  lemma PushedStep(mustMerge: bool, pending: Option<seq<byte>>, s: seq<byte>)
    ensures Decode(s).Some? ==>
      var p, rest := Decode(s).value, s[Consumed(s)..];
      Pushed(mustMerge, pending, s) ==
        if mustMerge then [MergeStep(pending, p).0] + Pushed(true, MergeStep(pending, p).1, rest)
        else [p] + Pushed(false, pending, rest)
  {
    if Decode(s).Some? {
      assert DecodeAll(s)[1..] == DecodeAll(s[Consumed(s)..]);
    }
  }
}
