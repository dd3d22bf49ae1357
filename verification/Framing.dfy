/**
  The packet stream of the device: a 12-byte header (flags and pts, size), then the payload. The
  decoder is sc_demuxer_recv_packet() in src/codec/demuxer.cpp as a function on the bytes still to come.
 */
module Framing {
  import opened Wrappers
  import opened Bits

  const HEADER_SIZE := 12
  const FLAG_CONFIG := Pow2(63)
  const FLAG_KEY_FRAME := Pow2(62)
  const PTS_MASK := FLAG_KEY_FRAME - 1
  /** AV_NOPTS_VALUE, the least 64-bit integer. */
  const NOPTS := -0x8000_0000_0000_0000

  /** An AVPacket as received. */
  datatype Packet = Packet(pts: int, dts: int, key: bool, data: seq<byte>)

  /** A packet as the device means it. */
  datatype Sent = Sent(config: bool, key: bool, pts: nat, payload: seq<byte>)

  ghost predicate Sendable(p: Sent) {
    p.pts < 0x4000_0000_0000_0000 && 0 < |p.payload| < 0x1_0000_0000
  }

  function Meaning(p: Sent): Packet {
    var pts := if p.config then NOPTS else p.pts;
    Packet(pts, pts, p.key, p.payload)
  }

  // ----- the sender

  function HeaderWord(p: Sent): nat {
    Or(if p.config then FLAG_CONFIG else 0, Or(if p.key then FLAG_KEY_FRAME else 0, p.pts))
  }

  lemma HeaderWordValue(p: Sent)
    requires Sendable(p)
    ensures HeaderWord(p) ==
      (if p.config then 0x8000_0000_0000_0000 else 0) + (if p.key then 0x4000_0000_0000_0000 else 0) + p.pts
  {
    Pow2Values();
    OrDisjoint(1, p.pts, 62);
    OrDisjoint(1, Or(if p.key then FLAG_KEY_FRAME else 0, p.pts), 63);
  }

  function Encode(p: Sent): seq<byte>
    requires Sendable(p)
  {
    HeaderWordValue(p);
    Be64(HeaderWord(p)) + Be32(|p.payload|) + p.payload
  }

  ghost predicate AllSendable(ps: seq<Sent>) {
    forall i :: 0 <= i < |ps| ==> Sendable(ps[i])
  }

  function EncodeAll(ps: seq<Sent>): seq<byte>
    requires AllSendable(ps)
  {
    if ps == [] then [] else Encode(ps[0]) + EncodeAll(ps[1..])
  }

  function Meanings(ps: seq<Sent>): (r: seq<Packet>)
    ensures |r| == |ps|
  {
    if ps == [] then [] else [Meaning(ps[0])] + Meanings(ps[1..])
  }

  // ----- the receiver

  function WordPts(word: nat): int {
    if And(word, FLAG_CONFIG) != 0 then NOPTS else And(word, PTS_MASK)
  }

  function WordKey(word: nat): bool {
    And(word, FLAG_KEY_FRAME) != 0
  }

  /** The length field of the next header, if a whole header is there. */
  function NextLength(s: seq<byte>): Option<nat> {
    if |s| < HEADER_SIZE then None else Some(BigEndian(s[8..12]))
  }

  /** The next packet, if all its bytes are there. */
  function Decode(s: seq<byte>): Option<Packet> {
    var len := NextLength(s);
    if len == None || |s| < HEADER_SIZE + len.value then None
    else
      var word := BigEndian(s[..8]);
      Some(Packet(WordPts(word), WordPts(word), WordKey(word), s[HEADER_SIZE..HEADER_SIZE + len.value]))
  }

  function Consumed(s: seq<byte>): (n: nat)
    requires Decode(s).Some?
    ensures 12 <= n <= |s|
  {
    HEADER_SIZE + |Decode(s).value.data|
  }

  function DecodeAll(s: seq<byte>): seq<Packet>
    decreases |s|
  {
    if Decode(s) == None then [] else [Decode(s).value] + DecodeAll(s[Consumed(s)..])
  }

  /** No header announces an empty packet: the receiver asserts this. */
  ghost predicate NoEmptyPacket(s: seq<byte>)
    decreases |s|
  {
    && NextLength(s) != Some(0)
    && (Decode(s).Some? ==> NoEmptyPacket(s[Consumed(s)..]))
  }

  // ----- round trip

  lemma ConfigBit(p: Sent)
    requires Sendable(p)
    ensures And(HeaderWord(p), FLAG_CONFIG) != 0 <==> p.config
  {
    HeaderWordValue(p);
    Pow2Values();
    Unpack(HeaderWord(p), if p.config then 1 else 0, (if p.key then FLAG_KEY_FRAME else 0) + p.pts, 63);
    AndBit(HeaderWord(p), 63);
  }

  lemma KeyBitAndPts(p: Sent)
    requires Sendable(p)
    ensures And(HeaderWord(p), FLAG_KEY_FRAME) != 0 <==> p.key
    ensures And(HeaderWord(p), PTS_MASK) == p.pts
  {
    var word := HeaderWord(p);
    HeaderWordValue(p);
    Pow2Values();
    Unpack(word, (if p.config then 2 else 0) + (if p.key then 1 else 0), p.pts, 62);
    AndBit(word, 62);
  }

  lemma WordRoundTrip(p: Sent)
    requires Sendable(p)
    ensures WordPts(HeaderWord(p)) == Meaning(p).pts && WordKey(HeaderWord(p)) == p.key
  {
    ConfigBit(p);
    KeyBitAndPts(p);
  }

  lemma EncodeThen(p: Sent, rest: seq<byte>)
    requires Sendable(p)
    ensures Decode(Encode(p) + rest) == Some(Meaning(p))
    ensures (Encode(p) + rest)[|Encode(p)|..] == rest && |Encode(p)| == HEADER_SIZE + |p.payload|
  {
    var s := Encode(p) + rest;
    HeaderWordValue(p);
    assert s[..8] == Be64(HeaderWord(p)) && s[8..12] == Be32(|p.payload|);
    assert s[12..12 + |p.payload|] == p.payload;
    BigEndianUndoesBe64(HeaderWord(p));
    BigEndianUndoesBe32(|p.payload|);
    WordRoundTrip(p);
  }

  /** Every list of packets comes back, consuming 12 + len bytes for each. */
  lemma {:induction false} RoundTrip(ps: seq<Sent>)
    requires AllSendable(ps)
    ensures DecodeAll(EncodeAll(ps)) == Meanings(ps) && NoEmptyPacket(EncodeAll(ps))
    decreases |ps|
  {
    if ps != [] {
      EncodeThen(ps[0], EncodeAll(ps[1..]));
      RoundTrip(ps[1..]);
    }
  }

  /** How many whole frames fit in the first n bytes. */
  function FramesWithin(ps: seq<Sent>, n: nat): (k: nat)
    ensures k <= |ps|
  {
    if ps == [] || n < HEADER_SIZE + |ps[0].payload| then 0
    else 1 + FramesWithin(ps[1..], n - (HEADER_SIZE + |ps[0].payload|))
  }

  lemma DecodeFrame(p: Sent, tail: seq<byte>, n: nat)
    requires Sendable(p) && |Encode(p)| <= n <= |Encode(p) + tail|
    ensures var s, rest := (Encode(p) + tail)[..n], tail[..n - |Encode(p)|];
      DecodeAll(s) == [Meaning(p)] + DecodeAll(rest) && (NoEmptyPacket(rest) ==> NoEmptyPacket(s))
  {
    var rest := tail[..n - |Encode(p)|];
    assert (Encode(p) + tail)[..n] == Encode(p) + rest;
    EncodeThen(p, rest);
  }

  /** A frame that is cut short is no packet. */
  lemma CutFrame(s: seq<byte>, n: nat)
    requires n <= |s|
    ensures Decode(s).Some? && n < Consumed(s) && NextLength(s) != Some(0) ==>
              Decode(s[..n]) == None && NextLength(s[..n]) != Some(0)
  {
    if n >= HEADER_SIZE {
      assert s[..n][8..12] == s[8..12];
    }
  }

  lemma DecodeCut(p: Sent, tail: seq<byte>, n: nat)
    requires Sendable(p) && n < |Encode(p)|
    ensures var s := (Encode(p) + tail)[..n]; DecodeAll(s) == [] && NoEmptyPacket(s)
  {
    EncodeThen(p, tail);
    CutFrame(Encode(p) + tail, n);
  }

  lemma TakeCons(x: Packet, t: seq<Packet>, k: nat)
    requires k <= |t|
    ensures ([x] + t)[..1 + k] == [x] + t[..k]
  {
  }

  /** The bytes s hold the first k of the packets. */
  ghost predicate Holds(s: seq<byte>, meanings: seq<Packet>, k: nat) {
    k <= |meanings| && DecodeAll(s) == meanings[..k] && NoEmptyPacket(s)
  }

  lemma WholeFrameHolds(p: Sent, tail: seq<byte>, n: nat, meanings: seq<Packet>, k: nat)
    requires Sendable(p) && |Encode(p)| <= n <= |Encode(p) + tail|
    requires Holds(tail[..n - |Encode(p)|], meanings, k)
    ensures Holds((Encode(p) + tail)[..n], [Meaning(p)] + meanings, 1 + k)
  {
    DecodeFrame(p, tail, n);
    TakeCons(Meaning(p), meanings, k);
  }

  lemma CutFrameHolds(p: Sent, tail: seq<byte>, n: nat, meanings: seq<Packet>)
    requires Sendable(p) && n < HEADER_SIZE + |p.payload| && n <= |Encode(p) + tail|
    ensures Holds((Encode(p) + tail)[..n], meanings, 0)
  {
    EncodeThen(p, tail);
    DecodeCut(p, tail, n);
  }

  lemma NothingHolds(s: seq<byte>, meanings: seq<Packet>)
    requires s == []
    ensures Holds(s, meanings, 0)
  {
  }

  lemma FirstOfEncoded(ps: seq<Sent>)
    requires AllSendable(ps) && ps != []
    ensures EncodeAll(ps) == Encode(ps[0]) + EncodeAll(ps[1..]) && |Encode(ps[0])| == HEADER_SIZE + |ps[0].payload|
    ensures Meanings(ps) == [Meaning(ps[0])] + Meanings(ps[1..])
  {
    EncodeThen(ps[0], []);
  }

  lemma {:induction false} CutHolds(ps: seq<Sent>, n: nat, s: seq<byte>)
    requires AllSendable(ps) && n <= |EncodeAll(ps)| && s == EncodeAll(ps)[..n]
    ensures Holds(s, Meanings(ps), FramesWithin(ps, n))
    decreases |ps|
  {
    if ps == [] {
      NothingHolds(s, Meanings(ps));
    } else {
      var p, tail := ps[0], EncodeAll(ps[1..]);
      FirstOfEncoded(ps);
      if n < HEADER_SIZE + |p.payload| {
        CutFrameHolds(p, tail, n, Meanings(ps));
      } else {
        var rest := n - |Encode(p)|;
        CutHolds(ps[1..], rest, tail[..rest]);
        WholeFrameHolds(p, tail, n, Meanings(ps[1..]), FramesWithin(ps[1..], rest));
      }
    }
  }

  /** A stream cut anywhere yields exactly the packets that arrived whole. */
  lemma Truncation(ps: seq<Sent>, n: nat)
    requires AllSendable(ps) && n <= |EncodeAll(ps)|
    ensures DecodeAll(EncodeAll(ps)[..n]) == Meanings(ps)[..FramesWithin(ps, n)]
    ensures NoEmptyPacket(EncodeAll(ps)[..n])
  {
    CutHolds(ps, n, EncodeAll(ps)[..n]);
  }

  /** The merger's test for a config packet is the wire's config bit. */
  lemma NoPtsMeansConfig(s: seq<byte>)
    ensures Decode(s).Some? ==>
      var word := BigEndian(s[..8]);
      && (Decode(s).value.pts == -0x8000_0000_0000_0000 <==> And(word, FLAG_CONFIG) != 0)
      && (Decode(s).value.pts != -0x8000_0000_0000_0000 ==> 0 <= Decode(s).value.pts < 0x4000_0000_0000_0000)
  {
    if Decode(s).Some? {
      Pow2Values();
      AndMask(BigEndian(s[..8]), 62);
      SplitAt(BigEndian(s[..8]), 62);
    }
  }
}
