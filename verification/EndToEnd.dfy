/**
  What the bytes sent by the device leave in the files of the sinks, through src/codec/demuxer.cpp,
  packet_merge.cpp, packet_source.cpp and packet_sink.cpp: first when nothing fails, then in any run.
 */
module EndToEnd {
  import opened Wrappers
  import opened Bits
  import opened Framing
  import opened Codecs
  import opened Adts
  import opened Merging
  import opened PacketSource
  import opened FileSink
  import opened Demuxer

  function VideoStream(id: nat, width: nat, height: nat, ps: seq<Sent>): seq<byte>
    requires id < 0x1_0000_0000 && width < 0x1_0000_0000 && height < 0x1_0000_0000 && AllSendable(ps)
  {
    Be32(id) + (Be32(width) + Be32(height)) + EncodeAll(ps)
  }

  function AudioStream(id: nat, ps: seq<Sent>): seq<byte>
    requires id < 0x1_0000_0000 && AllSendable(ps)
  {
    Be32(id) + EncodeAll(ps)
  }

  /** A config packet is written and becomes pending; a media packet is written after what is pending. */
  function Recorded(pending: seq<byte>, ps: seq<Sent>): seq<byte>
    decreases |ps|
  {
    if ps == [] then []
    else if ps[0].config then ps[0].payload + Recorded(ps[0].payload, ps[1..])
    else pending + ps[0].payload + Recorded([], ps[1..])
  }

  lemma Assoc(a: seq<byte>, b: seq<byte>, c: seq<byte>)
    ensures a + b + c == a + (b + c)
  {
  }

  lemma FileOfSnoc(codec: AvCodec, aac: AacParams, ps: seq<Packet>, p: Packet)
    ensures FileOf(codec, aac, ps + [p]) == FileOf(codec, aac, ps) + Chunk(codec, aac, p.data)
  {
    assert (ps + [p])[..|ps|] == ps;
  }

  lemma SnocSplit(p: Packet, ps: seq<Packet>)
    requires ps != []
    ensures var i := |ps| - 1; ps == ps[..i] + [ps[i]] && [p] + ps == ([p] + ps[..i]) + [ps[i]]
  {
  }

  lemma {:induction false} FileOfCons(codec: AvCodec, aac: AacParams, p: Packet, ps: seq<Packet>)
    ensures FileOf(codec, aac, [p] + ps) == Chunk(codec, aac, p.data) + FileOf(codec, aac, ps)
    decreases |ps|
  {
    if ps == [] {
      assert [p] + ps == [] + [p];
      FileOfSnoc(codec, aac, [], p);
    } else {
      var init, last := ps[..|ps| - 1], ps[|ps| - 1];
      SnocSplit(p, ps);
      FileOfCons(codec, aac, p, init);
      FileOfSnoc(codec, aac, [p] + init, last);
      FileOfSnoc(codec, aac, init, last);
      Assoc(Chunk(codec, aac, p.data), FileOf(codec, aac, init), Chunk(codec, aac, last.data));
    }
  }

  function Bytes(pending: Option<seq<byte>>): seq<byte> {
    if pending.Some? then pending.value else []
  }

  lemma RecordedStep(pending: Option<seq<byte>>, ps: seq<Sent>)
    requires ps != []
    ensures var (p, pending') := MergeStep(pending, Meaning(ps[0]));
      Recorded(Bytes(pending), ps) == p.data + Recorded(Bytes(pending'), ps[1..])
  {
    assert [] + ps[0].payload == ps[0].payload;
  }

  lemma {:induction false} MergedFile(codec: AvCodec, aac: AacParams, pending: Option<seq<byte>>, ps: seq<Sent>)
    requires !codec.AvAac?
    ensures FileOf(codec, aac, MergeAll(pending, Meanings(ps))) == Recorded(Bytes(pending), ps)
    decreases |ps|
  {
    if ps != [] {
      var step, tail := MergeStep(pending, Meaning(ps[0])), Meanings(ps[1..]);
      MergeCons(pending, Meaning(ps[0]), tail);
      MergedFile(codec, aac, step.1, ps[1..]);
      RecordedStep(pending, ps);
      FileOfCons(codec, aac, step.0, MergeAll(step.1, tail));
    }
  }

  lemma MergeCons(pending: Option<seq<byte>>, p: Packet, ps: seq<Packet>)
    ensures MergeAll(pending, [p] + ps) == [MergeStep(pending, p).0] + MergeAll(MergeStep(pending, p).1, ps)
  {
    assert ([p] + ps)[1..] == ps;
  }

  lemma CutBehindHeader(a: seq<byte>, b: seq<byte>, c: seq<byte>, cut: nat)
    requires |a| == 4 && |b| == 8 && 12 <= cut <= 12 + |c|
    ensures var s := (a + b + c)[..cut]; |s| == cut && s[..4] == a && s[12..] == c[..cut - 12]
  {
  }

  /** The codec header is read back, and the packets start behind it. */
  lemma VideoHeader(id: nat, width: nat, height: nat, ps: seq<Sent>, cut: nat, hasAv1: bool)
    requires id == ID_H264 || id == ID_H265
    requires width < 0x1_0000_0000 && height < 0x1_0000_0000 && AllSendable(ps)
    requires 12 <= cut <= |VideoStream(id, width, height, ps)|
    ensures var s := VideoStream(id, width, height, ps)[..cut];
      CodecId(s) == Some(id) && Body(s, hasAv1) == Some(EncodeAll(ps)[..cut - 12])
  {
    CutBehindHeader(Be32(id), Be32(width) + Be32(height), EncodeAll(ps), cut);
    BigEndianUndoesBe32(id);
  }

  lemma VideoOutcome(id: nat, width: nat, height: nat, ps: seq<Sent>, cut: nat, hasAv1: bool)
    requires id == ID_H264 || id == ID_H265
    requires width < 0x1_0000_0000 && height < 0x1_0000_0000 && AllSendable(ps)
    requires 12 <= cut <= |VideoStream(id, width, height, ps)|
    ensures FaultFree(VideoStream(id, width, height, ps)[..cut], hasAv1)
         == (Streamed(MergeAll(None, Meanings(ps[..FramesWithin(ps, cut - 12)])), None), EOS)
  {
    VideoHeader(id, width, height, ps, cut, hasAv1);
    Truncation(ps, cut - 12);
    MeaningsTake(ps, FramesWithin(ps, cut - 12));
  }

  /** An H.26x stream, cut anywhere after its header, is recorded in every sink up to the last whole packet. */
  lemma VideoEndToEnd(id: nat, width: nat, height: nat, ps: seq<Sent>, cut: nat, hasAv1: bool,
                      n: nat, i: nat, codec: AvCodec, ctx: Context, st: SinkState, faults: seq<Fault>)
    requires id == ID_H264 || id == ID_H265
    requires width < 0x1_0000_0000 && height < 0x1_0000_0000 && AllSendable(ps)
    requires 12 <= cut <= |VideoStream(id, width, height, ps)|
    requires i < n && !codec.AvAac? && !st.isOpen
    requires |faults| == FramesWithin(ps, cut - 12) + 2 && !Failed(faults)
    ensures var (o, status) := FaultFree(VideoStream(id, width, height, ps)[..cut], hasAv1);
      var calls := Trace(RunLog(n, o), i);
      && status == EOS && |calls| == |faults|
      && RunSink(codec, ctx, st, calls, faults).file == Recorded([], ps[..FramesWithin(ps, cut - 12)])
  {
    var kept := ps[..FramesWithin(ps, cut - 12)];
    VideoOutcome(id, width, height, ps, cut, hasAv1);
    SinkFile(codec, ctx, st, n, MergeAll(None, Meanings(kept)), i, faults);
    MergedFile(codec, Params(codec, ctx, st.aac), None, kept);
  }

  /** The file of sink i after a run in which neither a sink refuses nor the disk fails. */
  lemma SinkFile(codec: AvCodec, ctx: Context, st: SinkState, n: nat, ps: seq<Packet>, i: nat, faults: seq<Fault>)
    requires i < n && !st.isOpen && |faults| == |ps| + 2 && !Failed(faults)
    ensures var calls := Trace(RunLog(n, Streamed(ps, None)), i);
      && |calls| == |faults|
      && RunSink(codec, ctx, st, calls, faults).file == FileOf(codec, Params(codec, ctx, st.aac), ps)
  {
    TraceOfStreamed(n, ps, i);
    FileAfterRun(codec, ctx, st, ps, faults);
  }

  lemma TraceOfStreamed(n: nat, ps: seq<Packet>, i: nat)
    requires i < n
    ensures Trace(RunLog(n, Streamed(ps, None)), i) == [Open(true)] + Pushes(ps) + [Close]
  {
    TraceOfStream(n, ps, [], i);
    assert [Open(true)] + Pushes(ps) + [] + [Close] == [Open(true)] + Pushes(ps) + [Close];
  }

  lemma {:induction false} MeaningsTake(ps: seq<Sent>, k: nat)
    requires k <= |ps|
    ensures Meanings(ps)[..k] == Meanings(ps[..k])
    decreases k
  {
    if k > 0 {
      assert ps[..k][0] == ps[0] && ps[..k][1..] == ps[1..][..k - 1];
      MeaningsTake(ps[1..], k - 1);
      TakeCons(Meaning(ps[0]), Meanings(ps[1..]), k - 1);
    }
  }

  // ----- which codecs are taken, by the bytes that name them

  /** "opus", "flac", 0 "aac", 0 "raw" */
  predicate NamesAudio(id: seq<byte>) {
    || id == [0x6f, 0x70, 0x75, 0x73] || id == [0x66, 0x6c, 0x61, 0x63]
    || id == [0x00, 0x61, 0x61, 0x63] || id == [0x00, 0x72, 0x61, 0x77]
  }

  /** "h264", "h265" */
  predicate NamesH26x(id: seq<byte>) {
    id == [0x68, 0x32, 0x36, 0x34] || id == [0x68, 0x32, 0x36, 0x35]
  }

  /** 0 "av1" */
  predicate NamesAv1(id: seq<byte>) {
    id == [0x00, 0x61, 0x76, 0x31]
  }

  /** The ids as numbers. */
  lemma IdIsNamed(id: seq<byte>)
    requires |id| == 4
    ensures (id == [0, 0, 0, 0] <==> BigEndian(id) == ID_DISABLED)
    ensures (id == [0, 0, 0, 1] <==> BigEndian(id) == ID_CONFIG_ERROR)
    ensures NamesH26x(id) <==> BigEndian(id) == ID_H264 || BigEndian(id) == ID_H265
    ensures NamesAv1(id) <==> BigEndian(id) == ID_AV1
    ensures NamesAudio(id) <==> BigEndian(id) in [ID_OPUS, ID_FLAC, ID_AAC, ID_RAW]
  {
    IdIs(id, 0, 0, 0, 0);
    IdIs(id, 0, 0, 0, 1);
    IdIs(id, 0x68, 0x32, 0x36, 0x34);
    IdIs(id, 0x68, 0x32, 0x36, 0x35);
    IdIs(id, 0x00, 0x61, 0x76, 0x31);
    IdIs(id, 0x6f, 0x70, 0x75, 0x73);
    IdIs(id, 0x66, 0x6c, 0x61, 0x63);
    IdIs(id, 0x00, 0x61, 0x61, 0x63);
    IdIs(id, 0x00, 0x72, 0x61, 0x77);
  }

  lemma IdIs(id: seq<byte>, a: byte, b: byte, c: byte, d: byte)
    requires |id| == 4
    ensures id == [a, b, c, d] <==>
            BigEndian(id) == 0x100_0000 * (a as int) + 0x1_0000 * (b as int) + 0x100 * (c as int) + d
  {
    BigEndianOf4(id);
  }

  lemma IdInFront(id: seq<byte>, rest: seq<byte>)
    requires |id| == 4
    ensures (id + rest)[..4] == id && (id + rest)[4..] == rest && CodecId(id + rest) == Some(BigEndian(id))
  {
    assert (id + rest)[..4] == id;
  }

  lemma CutMeans(ps: seq<Sent>, cut: nat)
    requires AllSendable(ps) && cut <= |EncodeAll(ps)|
    ensures DecodeAll(EncodeAll(ps)[..cut]) == Meanings(ps[..FramesWithin(ps, cut)])
  {
    Truncation(ps, cut);
    MeaningsTake(ps, FramesWithin(ps, cut));
  }

  lemma AudioBytes(id: seq<byte>, rest: seq<byte>, hasAv1: bool)
    requires NamesAudio(id)
    ensures FaultFree(id + rest, hasAv1) == (Streamed(DecodeAll(rest), None), EOS)
  {
    IdIsNamed(id);
    IdInFront(id, rest);
  }

  /** Audio packets are handed on as they are, config packets too; a stream cut anywhere loses only the last one. */
  lemma AudioIsStreamed(id: seq<byte>, ps: seq<Sent>, cut: nat, hasAv1: bool)
    requires NamesAudio(id) && AllSendable(ps) && cut <= |EncodeAll(ps)|
    ensures FaultFree(id + EncodeAll(ps)[..cut], hasAv1)
         == (Streamed(Meanings(ps[..FramesWithin(ps, cut)]), None), EOS)
  {
    AudioBytes(id, EncodeAll(ps)[..cut], hasAv1);
    CutMeans(ps, cut);
  }

  lemma VideoBody(id: seq<byte>, size: seq<byte>, body: seq<byte>)
    requires |id| == 4 && |size| == 8
    ensures (id + (size + body))[12..] == body && |id + (size + body)| >= 12
  {
  }

  /** AV1 packets are not merged either; without AV1 in FFmpeg the sinks are disabled. */
  lemma Av1IsStreamed(id: seq<byte>, size: seq<byte>, ps: seq<Sent>, cut: nat, hasAv1: bool)
    requires NamesAv1(id) && |size| == 8 && AllSendable(ps) && cut <= |EncodeAll(ps)|
    ensures FaultFree(id + (size + EncodeAll(ps)[..cut]), hasAv1)
         == if hasAv1 then (Streamed(Meanings(ps[..FramesWithin(ps, cut)]), None), EOS) else (Disabled, ERROR)
  {
    IdIsNamed(id);
    IdInFront(id, size + EncodeAll(ps)[..cut]);
    VideoBody(id, size, EncodeAll(ps)[..cut]);
    CutMeans(ps, cut);
  }

  /** Each media packet of H.264 and H.265 gets the config packet directly before it. */
  lemma H26xIsStreamed(id: seq<byte>, size: seq<byte>, ps: seq<Sent>, cut: nat, hasAv1: bool)
    requires NamesH26x(id) && |size| == 8 && AllSendable(ps) && cut <= |EncodeAll(ps)|
    ensures FaultFree(id + (size + EncodeAll(ps)[..cut]), hasAv1)
         == (Streamed(MergeAll(None, Meanings(ps[..FramesWithin(ps, cut)])), None), EOS)
  {
    IdIsNamed(id);
    IdInFront(id, size + EncodeAll(ps)[..cut]);
    VideoBody(id, size, EncodeAll(ps)[..cut]);
    CutMeans(ps, cut);
  }

  /**
    Id 0 disables the stream, id 1 reports an error of the device, any other id disables the sinks; a stream
    that ends in the id or in the video size leaves the sinks alone.
   */
  lemma OthersAreNotStreamed(id: seq<byte>, rest: seq<byte>, hasAv1: bool)
    requires |id| <= 4 && (|id| < 4 ==> rest == [])
    ensures id == [0, 0, 0, 0] ==> FaultFree(id + rest, hasAv1) == (Disabled, DISABLED)
    ensures id == [0, 0, 0, 1] || |id| < 4 ==> FaultFree(id + rest, hasAv1) == (Untouched, ERROR)
    ensures (NamesH26x(id) || (NamesAv1(id) && hasAv1)) && |rest| < 8 ==>
              FaultFree(id + rest, hasAv1) == (Untouched, ERROR)
    ensures |id| == 4 && id != [0, 0, 0, 0] && id != [0, 0, 0, 1] &&
            !NamesAudio(id) && !NamesH26x(id) && !(NamesAv1(id) && hasAv1) ==>
              FaultFree(id + rest, hasAv1) == (Disabled, ERROR)
  {
    if |id| == 4 {
      IdInFront(id, rest);
      IdIsNamed(id);
    }
  }

  function SentPayloads(ps: seq<Sent>): seq<seq<byte>> {
    if ps == [] then [] else [ps[0].payload] + SentPayloads(ps[1..])
  }

  lemma {:induction false} FileOfMeanings(aac: AacParams, ps: seq<Sent>)
    ensures FileOf(AvAac, aac, Meanings(ps)) == AacFile(SentPayloads(ps), aac)
    decreases |ps|
  {
    if ps != [] {
      FileOfMeanings(aac, ps[1..]);
      FileOfCons(AvAac, aac, Meaning(ps[0]), Meanings(ps[1..]));
    }
  }

  lemma {:induction false} SentAreNonEmpty(ps: seq<Sent>)
    requires AllSendable(ps)
    ensures NonEmpty(SentPayloads(ps)) == SentPayloads(ps) && |SentPayloads(ps)| == |ps|
    ensures forall i :: 0 <= i < |ps| ==> SentPayloads(ps)[i] == ps[i].payload
    decreases |ps|
  {
    if ps != [] {
      SentAreNonEmpty(ps[1..]);
      assert Sendable(ps[0]);
    }
  }

  lemma AudioHeader(ps: seq<Sent>, hasAv1: bool)
    requires AllSendable(ps)
    ensures var s := AudioStream(ID_AAC, ps); CodecId(s) == Some(ID_AAC) && Body(s, hasAv1) == Some(EncodeAll(ps))
  {
    var s := AudioStream(ID_AAC, ps);
    assert s[..4] == Be32(ID_AAC) && s[4..] == EncodeAll(ps);
    BigEndianUndoesBe32(ID_AAC);
  }

  lemma AudioOutcome(ps: seq<Sent>, hasAv1: bool)
    requires AllSendable(ps)
    ensures FaultFree(AudioStream(ID_AAC, ps), hasAv1) == (Streamed(Meanings(ps), None), EOS)
  {
    AudioHeader(ps, hasAv1);
    RoundTrip(ps);
  }

  /** From an AAC file the frames sent can be walked back, if and only if each fits the length field. */
  lemma AacEndToEnd(ps: seq<Sent>, hasAv1: bool, n: nat, i: nat, ctx: Context, st: SinkState, faults: seq<Fault>)
    requires AllSendable(ps) && i < n && !st.isOpen && |faults| == |ps| + 2 && !Failed(faults)
    ensures var (o, status) := FaultFree(AudioStream(ID_AAC, ps), hasAv1);
      var calls := Trace(RunLog(n, o), i);
      && status == EOS && |calls| == |faults|
      && (Walk(RunSink(AvAac, ctx, st, calls, faults).file) == Some(SentPayloads(ps)) <==>
          forall j :: 0 <= j < |ps| ==> |ps[j].payload| <= MAX_FRAME)
  {
    var aac := Params(AvAac, ctx, st.aac);
    AudioOutcome(ps, hasAv1);
    SinkFile(AvAac, ctx, st, n, Meanings(ps), i, faults);
    FileOfMeanings(aac, ps);
    SentAreNonEmpty(ps);
    WalkRecoversExactlyIfFramesFit(SentPayloads(ps), aac);
  }

  // ----- when something fails

  /** Sink i was opened in the run. */
  predicate WasOpened(o: Outcome, i: nat) {
    o.Streamed? || (o.OpenFailed? && i < o.k)
  }

  lemma TraceOfBroken(n: nat, ps: seq<Packet>, k: nat, p: Packet, i: nat)
    requires i < n && k < n
    ensures var calls := Trace(RunLog(n, Streamed(ps, Some((k, p)))), i);
      calls == if i < k then [Open(true)] + Pushes(ps + [p]) + [Close]
               else if i == k then [Open(true)] + Pushes(ps) + [Push(p, false)] + [Close]
               else [Open(true)] + Pushes(ps) + [Close]
  {
    TraceOfStream(n, ps, PushFailLog(k, p), i);
    TraceOfPushFail(k, p, i);
    BrokenTrace(ps, p);
  }

  lemma TraceOfUnopened(n: nat, o: Outcome, i: nat)
    requires Possible(n, o) && i < n && !WasOpened(o, i)
    ensures var calls := Trace(RunLog(n, o), i); calls == [] || calls == [Disable] || calls == [Open(false)]
  {
    match o
    case Untouched =>
    case Disabled => TraceLoops(n, ANY, i);
    case OpenFailed(k) => TraceOfOpenFail(k, i);
  }

  lemma TraceOfOpened(n: nat, o: Outcome, i: nat, codec: AvCodec, ctx: Context, st: SinkState, faults: seq<Fault>)
    requires Possible(n, o) && i < n && WasOpened(o, i) && !st.isOpen
    requires Answers(codec, ctx, st, Trace(RunLog(n, o), i), faults)
    ensures Trace(RunLog(n, o), i) == OpenAndPush(Accepted(o, i)) + [Close]
  {
    match o
    case OpenFailed(k) =>
      TraceOfOpenFail(k, i);
      assert [Open(true), Close] == OpenAndPush([]) + [Close];
    case Streamed(ps, None) => TraceOfStreamed(n, ps, i);
    case Streamed(ps, Some((k, p))) =>
      TraceOfBroken(n, ps, k, p, i);
      if i == k {
        OpenSinkAccepts(codec, ctx, st, ps, p, faults);
      }
  }

  /** Sink i, a file sink that was closed before, has gone through a run; faults tells how its disk fared. */
  ghost predicate FileRun(n: nat, o: Outcome, i: nat, codec: AvCodec, ctx: Context, st: SinkState, faults: seq<Fault>) {
    && Possible(n, o) && i < n && !st.isOpen
    && Answers(codec, ctx, st, Trace(RunLog(n, o), i), faults)
  }

  function After(n: nat, o: Outcome, i: nat, codec: AvCodec, ctx: Context, st: SinkState, faults: seq<Fault>): SinkState
    requires |faults| == |Trace(RunLog(n, o), i)|
  {
    RunSink(codec, ctx, st, Trace(RunLog(n, o), i), faults)
  }

  /**
    After any run the file of a sink that was opened is a prefix of what the packets it accepted make. It is
    all of it if nothing failed on the disk, and the stream is broken if and only if something did.
   */
  lemma FileAfterAnyRun(n: nat, o: Outcome, i: nat, codec: AvCodec, ctx: Context, st: SinkState, faults: seq<Fault>)
    requires FileRun(n, o, i, codec, ctx, st, faults) && WasOpened(o, i)
    ensures var full := FileOf(codec, Params(codec, ctx, st.aac), Accepted(o, i));
      var st' := After(n, o, i, codec, ctx, st, faults);
      && st'.file <= full && (!Failed(faults) ==> st'.file == full)
      && (st'.broken <==> Failed(faults))
  {
    TraceOfOpened(n, o, i, codec, ctx, st, faults);
    FileAfterRun(codec, ctx, st, Accepted(o, i), faults);
  }

  /** A sink that was not opened in the run leaves its file alone. */
  lemma FileIfNotOpened(n: nat, o: Outcome, i: nat, codec: AvCodec, ctx: Context, st: SinkState, faults: seq<Fault>)
    requires FileRun(n, o, i, codec, ctx, st, faults) && !WasOpened(o, i)
    ensures After(n, o, i, codec, ctx, st, faults).file == st.file
  {
    TraceOfUnopened(n, o, i);
    UntouchedBy(codec, ctx, st, Trace(RunLog(n, o), i), faults);
  }

  lemma UntouchedBy(codec: AvCodec, ctx: Context, st: SinkState, calls: seq<Call>, faults: seq<Fault>)
    requires !st.isOpen && |faults| == |calls| && (calls == [] || calls == [Disable] || calls == [Open(false)])
    ensures RunSink(codec, ctx, st, calls, faults) == st
  {
    if calls != [] {
      OneCall(codec, ctx, st, calls[0], faults);
      assert calls == [calls[0]];
    }
  }

  lemma OneCall(codec: AvCodec, ctx: Context, st: SinkState, c: Call, faults: seq<Fault>)
    requires |faults| == 1
    ensures RunSink(codec, ctx, st, [c], faults) == SinkStep(codec, ctx, st, c, faults[0])
  {
    assert [] + [c] == [c];
    RunSnoc(codec, ctx, st, [], c, faults);
  }

  lemma AcceptedInStream(s: seq<byte>, hasAv1: bool, n: nat, o: Outcome, status: Status, i: nat)
    requires FaithfulRun(s, hasAv1, n, o, status)
    ensures Possible(n, o) && Accepted(o, i) <= Stream(s, hasAv1)
  {
  }

  lemma {:induction false} FileOfPrefix(codec: AvCodec, aac: AacParams, ps: seq<Packet>, k: nat)
    requires k <= |ps|
    ensures FileOf(codec, aac, ps[..k]) <= FileOf(codec, aac, ps)
    decreases |ps|
  {
    if k < |ps| {
      var i := |ps| - 1;
      assert ps[..i][..k] == ps[..k];
      FileOfPrefix(codec, aac, ps[..i], k);
      FileOfLast(codec, aac, ps);
    } else {
      assert ps[..k] == ps;
    }
  }

  /** Whatever fails, on the stream, in a sink or on the disk, a file is a prefix of what the stream makes. */
  lemma FileIsPrefix(s: seq<byte>, hasAv1: bool, n: nat, o: Outcome, status: Status, i: nat,
                     codec: AvCodec, ctx: Context, st: SinkState, faults: seq<Fault>)
    requires FaithfulRun(s, hasAv1, n, o, status) && FileRun(n, o, i, codec, ctx, st, faults) && WasOpened(o, i)
    ensures After(n, o, i, codec, ctx, st, faults).file
         <= FileOf(codec, Params(codec, ctx, st.aac), Stream(s, hasAv1))
  {
    var all, k := Stream(s, hasAv1), |Accepted(o, i)|;
    AcceptedInStream(s, hasAv1, n, o, status, i);
    FileAfterAnyRun(n, o, i, codec, ctx, st, faults);
    assert Accepted(o, i) == all[..k];
    FileOfPrefix(codec, Params(codec, ctx, st.aac), all, k);
  }

  /** The packet that the earlier of two sinks accepted and the later one did not, if there is one. */
  function Lag(codec: AvCodec, aac: AacParams, first: seq<Packet>, last: seq<Packet>): seq<byte> {
    if |first| > |last| then Chunk(codec, aac, first[|first| - 1].data) else []
  }

  lemma LagOfFiles(n: nat, o: Outcome, i: nat, j: nat, codec: AvCodec, aac: AacParams)
    requires Possible(n, o) && i <= j < n
    ensures FileOf(codec, aac, Accepted(o, i)) ==
            FileOf(codec, aac, Accepted(o, j)) + Lag(codec, aac, Accepted(o, i), Accepted(o, j))
  {
    var first, last := Accepted(o, i), Accepted(o, j);
    LaterSinksLag(n, o, i, j);
    if |first| == |last| {
      assert first == last;
    } else {
      assert first[..|first| - 1] == last;
      FileOfLast(codec, aac, first);
    }
  }

  /**
    Of two sinks one file is always a prefix of the other. If neither disk fails, the later sink's lacks at
    most the last packet of the earlier one's.
   */
  lemma LaterFileLags(n: nat, o: Outcome, i: nat, j: nat, codec: AvCodec, ctx: Context, st: SinkState,
                      faults: seq<Fault>, faults': seq<Fault>)
    requires i <= j && FileRun(n, o, i, codec, ctx, st, faults) && FileRun(n, o, j, codec, ctx, st, faults')
    requires WasOpened(o, j)
    ensures var earlier := After(n, o, i, codec, ctx, st, faults).file;
      var later := After(n, o, j, codec, ctx, st, faults').file;
      && (earlier <= later || later <= earlier)
      && (!Failed(faults) && !Failed(faults') ==>
            earlier == later + Lag(codec, Params(codec, ctx, st.aac), Accepted(o, i), Accepted(o, j)))
  {
    FileAfterAnyRun(n, o, i, codec, ctx, st, faults);
    FileAfterAnyRun(n, o, j, codec, ctx, st, faults');
    LagOfFiles(n, o, i, j, codec, Params(codec, ctx, st.aac));
    BothPrefixes(After(n, o, i, codec, ctx, st, faults).file, After(n, o, j, codec, ctx, st, faults').file,
                 FileOf(codec, Params(codec, ctx, st.aac), Accepted(o, i)));
  }

  lemma BothPrefixes(a: seq<byte>, b: seq<byte>, full: seq<byte>)
    requires a <= full && b <= full
    ensures a <= b || b <= a
  {
  }
}
