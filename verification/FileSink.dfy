/**
  sc_file_packet_sink of src/codec/packet_sink.cpp: a file that receives raw payloads, or ADTS frames
  for AAC. Every write, flush and close may fail, and the program looks at none of their results: the
  stream is broken from then on and drops what it is given, while the sink goes on accepting packets.
 */
module FileSink {
  import opened Wrappers
  import opened Bits
  import opened Framing
  import opened Environment
  import opened Codecs
  import opened Adts
  import opened Merging
  import opened PacketSource

  /** The index of the ISO table; unlisted rates get the entry of 44100 Hz. */
  function SampleRateIndex(rate: nat): nat {
    match rate
    case 96000 => 0
    case 88200 => 1
    case 64000 => 2
    case 48000 => 3
    case 44100 => 4
    case 32000 => 5
    case 24000 => 6
    case 22050 => 7
    case 16000 => 8
    case 12000 => 9
    case 11025 => 10
    case 8000 => 11
    case _ => 4
  }

  /** The table of the standard: the sample rate of an index. */
  function RateOf(index: nat): Option<nat> {
    match index
    case 0 => Some(96000)
    case 1 => Some(88200)
    case 2 => Some(64000)
    case 3 => Some(48000)
    case 4 => Some(44100)
    case 5 => Some(32000)
    case 6 => Some(24000)
    case 7 => Some(22050)
    case 8 => Some(16000)
    case 9 => Some(12000)
    case 10 => Some(11025)
    case 11 => Some(8000)
    case 12 => Some(7350)
    case _ => None
  }

  /**
    The header of every frame tells the sample rate of the codec context if it is one of these twelve, and
    44100 Hz otherwise, also for 7350 Hz, the last entry of the table.
   */
  lemma RateReadBackIff(codec: AvCodec, ctx: Context, before: AacParams, length: nat)
    requires codec.AvAac? && 1 <= before.profile <= 4
    ensures var h := AdtsHeader(length, Params(codec, ctx, before));
      && Profile(h) == before.profile
      && (RateOf(RateIndex(h)) == Some(ctx.sampleRate) <==>
            ctx.sampleRate in [96000, 88200, 64000, 48000, 44100, 32000, 24000, 22050, 16000, 12000, 11025, 8000])
      && (RateOf(RateIndex(h)) == Some(ctx.sampleRate) || RateOf(RateIndex(h)) == Some(44100))
  {
    FormatReadBack(length, Params(codec, ctx, before));
  }

  /** The bytes one packet adds to the file. */
  function Chunk(codec: AvCodec, aac: AacParams, data: seq<byte>): seq<byte> {
    if codec.AvAac? then AacChunk(data, aac) else data
  }

  function FileOf(codec: AvCodec, aac: AacParams, ps: seq<Packet>): seq<byte> {
    if ps == [] then [] else FileOf(codec, aac, ps[..|ps| - 1]) + Chunk(codec, aac, ps[|ps| - 1].data)
  }

  // ----- the stream

  /** How a call fared on the disk: None if all went well, Some(n) if something failed that left n bytes. */
  type Fault = Option<nat>

  /** What a failure leaves of the bytes given to the stream: some of them, but all that were flushed before. */
  function Left(bytes: seq<byte>, synced: nat, n: nat): (r: seq<byte>)
    ensures r <= bytes
  {
    bytes[..if n > |bytes| then |bytes| else if n < synced <= |bytes| then synced else n]
  }

  /** The file and the state of the stream after `data` was given to it. */
  ghost predicate Wrote(before: seq<byte>, wasBroken: bool, data: seq<byte>, synced: nat,
                        after: seq<byte>, broken: bool, fault: Fault)
  {
    if wasBroken then broken && fault == None && after == before
    else
      match fault
      case None => !broken && after == before + data
      case Some(n) => broken && synced <= n <= |before + data| && after == Left(before + data, synced, n)
  }

  function FirstFault(f: Fault, g: Fault): Fault {
    if f.Some? then f else g
  }

  lemma WroteTwice(a: seq<byte>, wasBroken: bool, d: seq<byte>, b: seq<byte>, broken: bool, f: Fault,
                   e: seq<byte>, c: seq<byte>, isBroken: bool, g: Fault, synced: nat)
    requires Wrote(a, wasBroken, d, synced, b, broken, f) && Wrote(b, broken, e, synced, c, isBroken, g)
    requires synced <= |a|
    ensures Wrote(a, wasBroken, d + e, synced, c, isBroken, FirstFault(f, g))
  {
    assert a + d + e == a + (d + e);
    if !wasBroken && f.Some? {
      assert (a + d)[..f.value] == (a + (d + e))[..f.value];
    }
  }

  // ----- the sink

  /** What a sink is to its callers; `synced` bytes of the file have been flushed. */
  datatype SinkState = SinkState(
    isOpen: bool, broken: bool, file: seq<byte>, synced: nat, aac: AacParams, packetCount: nat)

  /** What the codec context tells the sink when it is opened. */
  datatype Context = Context(sampleRate: nat, channels: nat)

  function Params(codec: AvCodec, ctx: Context, before: AacParams): AacParams {
    if codec.AvAac? then AacParams(before.profile, SampleRateIndex(ctx.sampleRate), ctx.channels) else before
  }

  function SinkStep(codec: AvCodec, ctx: Context, st: SinkState, call: Call, fault: Fault): SinkState {
    match call
    case Open(false) => st
    case Open(true) =>
      var aac := Params(codec, ctx, st.aac);
      if st.isOpen then st.(broken := true, aac := aac)
      else st.(isOpen := true, broken := false, file := [], synced := 0, aac := aac)
    case Push(p, _) => if st.isOpen then PushStep(codec, st, p, fault) else st
    case Close => if st.isOpen then CloseStep(st, fault) else st
    case Disable => if st.isOpen then CloseStep(st, fault) else st
  }

  function PushStep(codec: AvCodec, st: SinkState, p: Packet, fault: Fault): SinkState {
    var bytes := st.file + Chunk(codec, st.aac, p.data);
    var count := (st.packetCount + 1) % 0x1_0000_0000;
    if st.broken then st.(packetCount := count)
    else
      match fault
      case None => st.(file := bytes, synced := if count % 100 == 0 then |bytes| else st.synced, packetCount := count)
      case Some(n) => st.(broken := true, file := Left(bytes, st.synced, n), packetCount := count)
  }

  /** Closing writes out what is still buffered, even if the stream is broken. */
  function CloseStep(st: SinkState, fault: Fault): SinkState {
    match fault
    case None => st.(isOpen := false)
    case Some(n) => st.(isOpen := false, broken := true, file := Left(st.file, st.synced, n))
  }

  class Sink {
    const codec: AvCodec
    var isOpen: bool
    var broken: bool        // the failbit or badbit of the ofstream
    var file: seq<byte>
    var synced: nat         // bytes of the file that have been flushed
    var aac: AacParams
    var packetCount: nat

    constructor (codec: AvCodec)
      ensures this.codec == codec && View() == SinkState(false, false, [], 0, AacParams(2, 4, 2), 0)
    {
      this.codec := codec;
      isOpen, broken, file, synced, aac, packetCount := false, false, [], 0, AacParams(2, 4, 2), 0;
    }

    function View(): SinkState
      reads this
    {
      SinkState(isOpen, broken, file, synced, aac, packetCount)
    }

    ghost predicate Valid()
      reads this
    {
      synced <= |file|
    }

    /** An ofstream that is already open stays open on its old file, but from then on it is broken. */
    method FileOpen(ctx: Context, env: Env) returns (ok: bool)
      requires Valid()
      modifies this, env
      ensures Valid() && env.faults == old(env.faults) + if ok then 0 else 1
      ensures old(isOpen) ==> ok
      ensures View() == SinkStep(codec, ctx, old(View()), Open(ok), None)
    {
      if isOpen {
        broken := true;
        ok := true;
      } else {
        ok := env.Try();
        if !ok {
          return;
        }
        isOpen, broken, file, synced := true, false, [], 0;
      }
      if codec.AvAac? {
        aac := aac.(sampleRateIndex := SampleRateIndex(ctx.sampleRate), channels := ctx.channels);
      }
    }

    /** Refuses a packet only if the file is not open; whether the disk takes it makes no difference. */
    method FilePush(packet: AvPacket, ghost ctx: Context, env: Env) returns (ok: bool, ghost fault: Fault)
      requires Valid()
      modifies this, env
      ensures Valid() && ok == isOpen == old(isOpen)
      ensures env.faults == old(env.faults) + if fault.Some? then 1 else 0
      ensures View() == SinkStep(codec, ctx, old(View()), Push(packet.View(), ok), fault)
    {
      if !isOpen {
        return false, None;
      }
      fault := WritePacket(packet, env);
      packetCount := (packetCount + 1) % 0x1_0000_0000;
      if packetCount % 100 == 0 {
        ghost var before, wasBroken := file, broken;
        ghost var g := Flush(env);
        WroteTwice(old(file), old(broken), Chunk(codec, aac, packet.View().data), before, wasBroken, fault,
                   [], file, broken, g, old(synced));
        NothingMore(Chunk(codec, aac, packet.View().data));
        fault := FirstFault(fault, g);
      }
      ok := true;
    }

    method WritePacket(packet: AvPacket, env: Env) returns (ghost fault: Fault)
      requires Valid()
      modifies this`file, this`broken, env
      ensures Valid() && env.faults == old(env.faults) + if fault.Some? then 1 else 0
      ensures Wrote(old(file), old(broken), Chunk(codec, aac, packet.View().data), synced, file, broken, fault)
    {
      fault := None;
      if codec.AvAac? {
        fault := WriteAac(packet, env);
      } else if packet.data.Length > 0 {
        fault := Write(packet.data, env);
      }
    }

    method Write(data: array<byte>, env: Env) returns (ghost fault: Fault)
      requires Valid()
      modifies this`file, this`broken, env
      ensures Valid() && env.faults == old(env.faults) + if fault.Some? then 1 else 0
      ensures Wrote(old(file), old(broken), data[..], synced, file, broken, fault)
    {
      fault := None;
      if !broken {
        var ok := env.Try();
        if ok {
          file := file + data[..];
        } else {
          fault := Break(file + data[..]);
        }
      }
    }

    /** The disk takes only some of the bytes, perhaps not even all that the stream still held. */
    method Break(bytes: seq<byte>) returns (ghost fault: Fault)
      requires synced <= |bytes|
      modifies this`file, this`broken
      ensures broken && fault.Some? && synced <= fault.value <= |bytes| && file == Left(bytes, synced, fault.value)
      ensures synced <= |file|
    {
      var n: int :| synced <= n <= |bytes|;
      file, broken := bytes[..n], true;
      fault := Some(n);
    }

    method Flush(env: Env) returns (ghost fault: Fault)
      requires Valid()
      modifies this`file, this`broken, this`synced, env
      ensures Valid() && env.faults == old(env.faults) + if fault.Some? then 1 else 0
      ensures Wrote(old(file), old(broken), [], old(synced), file, broken, fault)
      ensures synced == if broken then old(synced) else |file|
    {
      fault := None;
      if !broken {
        var ok := env.Try();
        if ok {
          synced := |file|;
        } else {
          fault := Break(file);
          assert old(file) + [] == old(file);
        }
      }
    }

    method WriteAac(packet: AvPacket, env: Env) returns (ghost fault: Fault)
      requires Valid()
      modifies this`file, this`broken, env
      ensures Valid() && env.faults == old(env.faults) + if fault.Some? then 1 else 0
      ensures Wrote(old(file), old(broken), AacChunk(packet.View().data, aac), synced, file, broken, fault)
    {
      fault := None;
      if packet.data.Length == 0 {
        return;
      }
      var header := new byte[ADTS_HEADER_SIZE];
      CreateAdtsHeader(header, packet.data.Length + ADTS_HEADER_SIZE, aac);
      fault := Write(header, env);
      ghost var before, wasBroken := file, broken;
      ghost var g := Write(packet.data, env);
      WroteTwice(old(file), old(broken), header[..], before, wasBroken, fault,
                 packet.data[..], file, broken, g, synced);
      fault := FirstFault(fault, g);
    }

    method FileClose(ghost ctx: Context, env: Env) returns (ghost fault: Fault)
      requires Valid()
      modifies this, env
      ensures Valid() && env.faults == old(env.faults) + if fault.Some? then 1 else 0
      ensures View() == SinkStep(codec, ctx, old(View()), Close, fault)
    {
      fault := None;
      if isOpen {
        var ok := env.Try();
        if !ok {
          fault := Break(file);
        }
        isOpen := false;
      }
    }

    method FileDisable(ghost ctx: Context, env: Env) returns (ghost fault: Fault)
      requires Valid()
      modifies this, env
      ensures Valid() && env.faults == old(env.faults) + if fault.Some? then 1 else 0
      ensures View() == SinkStep(codec, ctx, old(View()), Disable, fault)
    {
      fault := None;
      if isOpen {
        var ok := env.Try();
        if !ok {
          fault := Break(file);
        }
        isOpen := false;
      }
    }
  }

  lemma NothingMore(s: seq<byte>)
    ensures s + [] == s
  {
  }

  // ----- whole traces; faults[i] is how call i fared

  function RunSink(codec: AvCodec, ctx: Context, st: SinkState, calls: seq<Call>, faults: seq<Fault>): SinkState
    requires |faults| == |calls|
    decreases |calls|
  {
    if calls == [] then st
    else
      var i := |calls| - 1;
      SinkStep(codec, ctx, RunSink(codec, ctx, st, calls[..i], faults[..i]), calls[i], faults[i])
  }

  lemma RunSnoc(codec: AvCodec, ctx: Context, st: SinkState, calls: seq<Call>, c: Call, faults: seq<Fault>)
    requires |faults| == |calls| + 1
    ensures RunSink(codec, ctx, st, calls + [c], faults) ==
            SinkStep(codec, ctx, RunSink(codec, ctx, st, calls, faults[..|calls|]), c, faults[|calls|])
  {
    assert (calls + [c])[..|calls|] == calls;
  }

  /** Some write, flush or close failed; opening is not among them. */
  ghost predicate Failed(faults: seq<Fault>) {
    exists i :: 0 < i < |faults| && faults[i].Some?
  }

  lemma FailedSnoc(faults: seq<Fault>)
    requires |faults| > 1
    ensures var i := |faults| - 1; Failed(faults) <==> Failed(faults[..i]) || faults[i].Some?
  {
    var i := |faults| - 1;
    if Failed(faults[..i]) {
      var k :| 0 < k < i && faults[..i][k].Some?;
      assert faults[k].Some?;
    }
    if Failed(faults) {
      var k :| 0 < k < |faults| && faults[k].Some?;
      assert k < i ==> faults[..i][k].Some?;
    }
  }

  /** The calls that open a sink and hand it packets. */
  function OpenAndPush(ps: seq<Packet>): (r: seq<Call>)
    ensures |r| == |ps| + 1
  {
    [Open(true)] + Pushes(ps)
  }

  lemma OpenAndPushSnoc(ps: seq<Packet>)
    requires ps != []
    ensures var i := |ps| - 1; OpenAndPush(ps) == OpenAndPush(ps[..i]) + [Push(ps[i], true)]
  {
  }

  lemma OpenStep(codec: AvCodec, ctx: Context, st: SinkState, faults: seq<Fault>)
    requires |faults| == 1
    ensures RunSink(codec, ctx, st, OpenAndPush([]), faults) == SinkStep(codec, ctx, st, Open(true), faults[0])
  {
    assert OpenAndPush([]) == [Open(true)];
    assert [Open(true)][..0] == [];
  }

  lemma PushLast(codec: AvCodec, ctx: Context, st: SinkState, ps: seq<Packet>, faults: seq<Fault>)
    requires ps != [] && |faults| == |ps| + 1
    ensures var i := |ps| - 1;
      var before := RunSink(codec, ctx, st, OpenAndPush(ps[..i]), faults[..|ps|]);
      RunSink(codec, ctx, st, OpenAndPush(ps), faults) == SinkStep(codec, ctx, before, Push(ps[i], true), faults[|ps|])
  {
    var i := |ps| - 1;
    OpenAndPushSnoc(ps);
    RunSnoc(codec, ctx, st, OpenAndPush(ps[..i]), Push(ps[i], true), faults);
  }

  /** A prefix of the bytes of the packets; all of them unless the stream is broken. */
  ghost predicate Keeps(st: SinkState, full: seq<byte>) {
    && st.synced <= |st.file| && st.file <= full
    && (!st.broken ==> st.file == full)
  }

  lemma PushKeeps(codec: AvCodec, st: SinkState, p: Packet, fault: Fault, full: seq<byte>)
    requires st.isOpen && Keeps(st, full)
    ensures var st' := PushStep(codec, st, p, fault);
      Keeps(st', full + Chunk(codec, st.aac, p.data)) && (st'.broken <==> st.broken || fault.Some?)
  {
  }

  lemma CloseKeeps(st: SinkState, fault: Fault, full: seq<byte>)
    requires Keeps(st, full)
    ensures Keeps(CloseStep(st, fault), full) && (CloseStep(st, fault).broken <==> st.broken || fault.Some?)
  {
  }

  lemma FileOfLast(codec: AvCodec, aac: AacParams, ps: seq<Packet>)
    requires ps != []
    ensures var i := |ps| - 1; FileOf(codec, aac, ps) == FileOf(codec, aac, ps[..i]) + Chunk(codec, aac, ps[i].data)
  {
  }

  lemma {:induction false} RunPushes(codec: AvCodec, ctx: Context, st: SinkState, ps: seq<Packet>, faults: seq<Fault>)
    requires !st.isOpen && |faults| == |ps| + 1
    ensures var st' := RunSink(codec, ctx, st, OpenAndPush(ps), faults);
      && st'.isOpen && st'.aac == Params(codec, ctx, st.aac)
      && Keeps(st', FileOf(codec, st'.aac, ps)) && (st'.broken <==> Failed(faults))
    decreases |ps|
  {
    if ps == [] {
      OpenStep(codec, ctx, st, faults);
    } else {
      var i := |ps| - 1;
      RunPushes(codec, ctx, st, ps[..i], faults[..|ps|]);
      PushLast(codec, ctx, st, ps, faults);
      var before := RunSink(codec, ctx, st, OpenAndPush(ps[..i]), faults[..|ps|]);
      PushKeeps(codec, before, ps[i], faults[|ps|], FileOf(codec, before.aac, ps[..i]));
      FileOfLast(codec, before.aac, ps);
      FailedSnoc(faults);
    }
  }

  /**
    A sink that was opened, given packets and closed: its file is a prefix of what those packets make, it is
    all of it if nothing failed on the disk, and the stream ends broken if and only if something failed.
   */
  lemma FileAfterRun(codec: AvCodec, ctx: Context, st: SinkState, ps: seq<Packet>, faults: seq<Fault>)
    requires !st.isOpen && |faults| == |ps| + 2
    ensures var full := FileOf(codec, Params(codec, ctx, st.aac), ps);
      var st' := RunSink(codec, ctx, st, OpenAndPush(ps) + [Close], faults);
      && !st'.isOpen && st'.file <= full
      && (st'.broken <==> Failed(faults)) && (!Failed(faults) ==> st'.file == full)
  {
    var last := |ps| + 1;
    RunPushes(codec, ctx, st, ps, faults[..last]);
    RunSnoc(codec, ctx, st, OpenAndPush(ps), Close, faults);
    var before := RunSink(codec, ctx, st, OpenAndPush(ps), faults[..last]);
    CloseKeeps(before, faults[last], FileOf(codec, before.aac, ps));
    FailedSnoc(faults);
  }

  /** A sink that is opened again while it is open accepts packets but writes none of them. */
  lemma {:induction false} OpenedAgainDropsAll(codec: AvCodec, ctx: Context, st: SinkState, ps: seq<Packet>,
                                               faults: seq<Fault>)
    requires st.isOpen && |faults| == |ps| + 1
    ensures var st' := RunSink(codec, ctx, st, OpenAndPush(ps), faults);
      st'.isOpen && st'.broken && st'.file == st.file
    decreases |ps|
  {
    if ps == [] {
      OpenStep(codec, ctx, st, faults);
    } else {
      OpenedAgainDropsAll(codec, ctx, st, ps[..|ps| - 1], faults[..|ps|]);
      PushLast(codec, ctx, st, ps, faults);
    }
  }

  // ----- what a sink answers

  /** The results recorded for the calls are those of a file sink: it refuses only while it is not open. */
  ghost predicate Answers(codec: AvCodec, ctx: Context, st: SinkState, calls: seq<Call>, faults: seq<Fault>)
    decreases |calls|
  {
    |faults| == |calls| &&
    (calls == [] ||
     var i := |calls| - 1;
     && Answers(codec, ctx, st, calls[..i], faults[..i])
     && (calls[i].Push? ==> calls[i].accepted == RunSink(codec, ctx, st, calls[..i], faults[..i]).isOpen))
  }

  /** A sink that is open refuses nothing. */
  lemma OpenSinkAccepts(codec: AvCodec, ctx: Context, st: SinkState, ps: seq<Packet>, p: Packet, faults: seq<Fault>)
    requires !st.isOpen
    ensures !Answers(codec, ctx, st, OpenAndPush(ps) + [Push(p, false)] + [Close], faults)
  {
    var calls := OpenAndPush(ps) + [Push(p, false)];
    if |faults| == |calls| + 1 {
      assert (calls + [Close])[..|calls|] == calls;
      assert calls[..|calls| - 1] == OpenAndPush(ps);
      assert faults[..|calls|][..|ps| + 1] == faults[..|ps| + 1];
      RunPushes(codec, ctx, st, ps, faults[..|ps| + 1]);
    }
  }

  lemma {:induction false} OpenAndPushAnswers(codec: AvCodec, ctx: Context, st: SinkState, ps: seq<Packet>,
                                              faults: seq<Fault>)
    requires !st.isOpen && |faults| == |ps| + 1
    ensures Answers(codec, ctx, st, OpenAndPush(ps), faults)
    decreases |ps|
  {
    if ps == [] {
      assert OpenAndPush([]) == [Open(true)] && OpenAndPush([])[..0] == [];
    } else {
      var i := |ps| - 1;
      OpenAndPushAnswers(codec, ctx, st, ps[..i], faults[..|ps|]);
      RunPushes(codec, ctx, st, ps[..i], faults[..|ps|]);
      OpenAndPushSnoc(ps);
      assert OpenAndPush(ps)[..|ps|] == OpenAndPush(ps[..i]);
    }
  }

  /** Whatever the disk does, a sink that was opened accepts every packet. */
  lemma AcceptsWhateverFails(codec: AvCodec, ctx: Context, st: SinkState, ps: seq<Packet>, faults: seq<Fault>)
    requires !st.isOpen && |faults| == |ps| + 2
    ensures Answers(codec, ctx, st, OpenAndPush(ps) + [Close], faults)
  {
    OpenAndPushAnswers(codec, ctx, st, ps, faults[..|ps| + 1]);
    assert (OpenAndPush(ps) + [Close])[..|ps| + 1] == OpenAndPush(ps);
  }

  /** The disk is full from the start: the packet is accepted, and the file stays empty. */
  lemma DiskFull(codec: AvCodec, ctx: Context, st: SinkState, p: Packet)
    requires !st.isOpen && Chunk(codec, Params(codec, ctx, st.aac), p.data) != []
    ensures var calls, faults := OpenAndPush([p]) + [Close], [None, Some(0), None];
      && Answers(codec, ctx, st, calls, faults) && Push(p, true) in calls
      && RunSink(codec, ctx, st, calls, faults).file == []
      && FileOf(codec, Params(codec, ctx, st.aac), [p]) != []
  {
    var faults: seq<Fault> := [None, Some(0), None];
    AcceptsWhateverFails(codec, ctx, st, [p], faults);
    OpenAndPushSnoc([p]);
    assert (OpenAndPush([p]) + [Close])[1] == Push(p, true);
    RunSnoc(codec, ctx, st, OpenAndPush([p]), Close, faults);
    PushLast(codec, ctx, st, [p], faults[..2]);
    OpenStep(codec, ctx, st, faults[..2][..1]);
    assert [p][..0] == [];
    FileOfLast(codec, Params(codec, ctx, st.aac), [p]);
  }

  // ----- what has been flushed stays

  /** The bytes in `safe` are on the disk. */
  ghost predicate Safe(st: SinkState, safe: seq<byte>) {
    |safe| <= st.synced <= |st.file| && safe <= st.file
  }

  lemma PushKeepsSafe(codec: AvCodec, ctx: Context, st: SinkState, p: Packet, fault: Fault, safe: seq<byte>)
    requires st.isOpen && Safe(st, safe)
    ensures var st' := SinkStep(codec, ctx, st, Push(p, true), fault); st'.isOpen && Safe(st', safe)
  {
  }

  lemma CloseKeepsSafe(st: SinkState, fault: Fault, safe: seq<byte>)
    requires Safe(st, safe)
    ensures Safe(CloseStep(st, fault), safe)
  {
  }

  lemma NextCount(c: nat)
    ensures (c % 0x1_0000_0000 + 1) % 0x1_0000_0000 == (c + 1) % 0x1_0000_0000
  {
  }

  lemma PushCounts(codec: AvCodec, ctx: Context, st: SinkState, p: Packet, fault: Fault)
    requires st.isOpen
    ensures SinkStep(codec, ctx, st, Push(p, true), fault).packetCount == (st.packetCount + 1) % 0x1_0000_0000
  {
  }

  lemma {:induction false} CountAfter(codec: AvCodec, ctx: Context, st: SinkState, ps: seq<Packet>, faults: seq<Fault>)
    requires !st.isOpen && |faults| == |ps| + 1 && ps != []
    ensures RunSink(codec, ctx, st, OpenAndPush(ps), faults).packetCount == (st.packetCount + |ps|) % 0x1_0000_0000
    decreases |ps|
  {
    var i := |ps| - 1;
    RunPushes(codec, ctx, st, ps[..i], faults[..|ps|]);
    PushLast(codec, ctx, st, ps, faults);
    PushCounts(codec, ctx, RunSink(codec, ctx, st, OpenAndPush(ps[..i]), faults[..|ps|]), ps[i], faults[|ps|]);
    if i > 0 {
      CountAfter(codec, ctx, st, ps[..i], faults[..|ps|]);
      NextCount(st.packetCount + i);
    } else {
      OpenStep(codec, ctx, st, faults[..1]);
    }
  }

  lemma FlushedNow(codec: AvCodec, ctx: Context, st: SinkState, ps: seq<Packet>, faults: seq<Fault>)
    requires !st.isOpen && |faults| == |ps| + 1 && ps != []
    requires !Failed(faults) && (st.packetCount + |ps|) % 0x1_0000_0000 % 100 == 0
    ensures Safe(RunSink(codec, ctx, st, OpenAndPush(ps), faults), FileOf(codec, Params(codec, ctx, st.aac), ps))
  {
    var i := |ps| - 1;
    RunPushes(codec, ctx, st, ps[..i], faults[..|ps|]);
    RunPushes(codec, ctx, st, ps, faults);
    CountAfter(codec, ctx, st, ps, faults);
    PushLast(codec, ctx, st, ps, faults);
    FlushAtHundred(codec, ctx, RunSink(codec, ctx, st, OpenAndPush(ps[..i]), faults[..|ps|]), ps[i], faults[|ps|]);
  }

  lemma FlushAtHundred(codec: AvCodec, ctx: Context, st: SinkState, p: Packet, fault: Fault)
    requires st.isOpen
    ensures var st' := SinkStep(codec, ctx, st, Push(p, true), fault);
      st'.packetCount % 100 == 0 && !st'.broken ==> st'.synced == |st'.file|
  {
  }

  /** What is safe after k packets is safe after any more. */
  lemma {:induction false} StaysSafe(codec: AvCodec, ctx: Context, st: SinkState, ps: seq<Packet>,
                                     faults: seq<Fault>, k: nat, safe: seq<byte>)
    requires |faults| == |ps| + 1 && k <= |ps|
    requires var st' := RunSink(codec, ctx, st, OpenAndPush(ps[..k]), faults[..k + 1]); st'.isOpen && Safe(st', safe)
    ensures var st' := RunSink(codec, ctx, st, OpenAndPush(ps), faults); st'.isOpen && Safe(st', safe)
    decreases |ps|
  {
    if k == |ps| {
      assert ps[..k] == ps && faults[..k + 1] == faults;
    } else {
      var i := |ps| - 1;
      assert faults[..|ps|][..k + 1] == faults[..k + 1] && ps[..i][..k] == ps[..k];
      StaysSafe(codec, ctx, st, ps[..i], faults[..|ps|], k, safe);
      PushLast(codec, ctx, st, ps, faults);
      var before := RunSink(codec, ctx, st, OpenAndPush(ps[..i]), faults[..|ps|]);
      PushKeepsSafe(codec, ctx, before, ps[i], faults[|ps|], safe);
    }
  }

  /** After every hundredth packet that went well, a later failure cannot take back what is in the file. */
  lemma FlushedStays(codec: AvCodec, ctx: Context, st: SinkState, ps: seq<Packet>, faults: seq<Fault>, k: nat)
    requires !st.isOpen && |faults| == |ps| + 2 && 0 < k <= |ps|
    requires !Failed(faults[..k + 1]) && (st.packetCount + k) % 0x1_0000_0000 % 100 == 0
    ensures FileOf(codec, Params(codec, ctx, st.aac), ps[..k])
         <= RunSink(codec, ctx, st, OpenAndPush(ps) + [Close], faults).file
  {
    var last, safe := |ps| + 1, FileOf(codec, Params(codec, ctx, st.aac), ps[..k]);
    assert faults[..last][..k + 1] == faults[..k + 1];
    FlushedNow(codec, ctx, st, ps[..k], faults[..k + 1]);
    RunPushes(codec, ctx, st, ps[..k], faults[..k + 1]);
    StaysSafe(codec, ctx, st, ps, faults[..last], k, safe);
    RunSnoc(codec, ctx, st, OpenAndPush(ps), Close, faults);
    CloseKeepsSafe(RunSink(codec, ctx, st, OpenAndPush(ps), faults[..last]), faults[last], safe);
  }
}
