/**
  The ADTS framing of AAC files: create_adts_header() and write_aac() of src/codec/packet_sink.cpp,
  and a reader that walks such a file by syncword and frame length (section 6.2 of ISO/IEC 13818-7).
 */
module Adts {
  import opened Wrappers
  import opened Bits

  const ADTS_HEADER_SIZE := 7
  /** The largest frame whose length, header included, fits the 13-bit field. */
  const MAX_FRAME := 0x1FFF - ADTS_HEADER_SIZE

  datatype AacParams = AacParams(profile: nat, sampleRateIndex: nat, channels: nat)

  /** (profile - 1) & 0x03, in two's complement for profile 0. */
  function ProfileBits(profile: nat): nat {
    And(if profile == 0 then 3 else profile - 1, 3)
  }

  function Byte2(aac: AacParams): nat {
    Or(Shl(ProfileBits(aac.profile), 6), Shl(And(aac.sampleRateIndex, 0xF), 2))
  }

  function Byte3(length: nat, aac: AacParams): nat {
    Or(Shl(And(aac.channels, 7), 4), And(Shr(length, 11), 3))
  }

  function Byte4(length: nat): nat {
    And(Shr(length, 3), 0xFF)
  }

  function Byte5(length: nat): nat {
    Or(Shl(And(length, 7), 5), 0x1F)
  }

  function AdtsHeader(length: nat, aac: AacParams): (h: seq<byte>)
    ensures |h| == ADTS_HEADER_SIZE
  {
    HeaderFits(length, aac);
    [0xFF, 0xF0, Byte2(aac), Byte3(length, aac), Byte4(length), Byte5(length), 0xFC]
  }

  /** memset() with zero */
  method Clear(a: array<byte>)
    modifies a
    ensures forall i :: 0 <= i < a.Length ==> a[i] == 0
  {
    for i := 0 to a.Length
      invariant forall j :: 0 <= j < i ==> a[j] == 0
    {
      a[i] := 0;
    }
  }

  /** create_adts_header(): the bytes are cleared, set and or-ed in place. */
  method CreateAdtsHeader(header: array<byte>, length: nat, aac: AacParams)
    requires header.Length == ADTS_HEADER_SIZE
    modifies header
    ensures header[..] == AdtsHeader(length, aac)
  {
    HeaderFits(length, aac);
    Clear(header);
    header[0] := 0xFF;
    header[1] := 0xF0;
    header[1] := Or(header[1], 0);
    header[2] := Shl(ProfileBits(aac.profile), 6);
    header[2] := Or(header[2], Shl(And(aac.sampleRateIndex, 0xF), 2));
    header[3] := Shl(And(aac.channels, 7), 4);
    header[3] := Or(header[3], And(Shr(length, 11), 3));
    header[4] := And(Shr(length, 3), 0xFF);
    header[5] := Shl(And(length, 7), 5);
    header[5] := Or(header[5], 0x1F);
    header[6] := 0xFC;
    header[6] := Or(header[6], 0);
  }

  // ----- the reader

  /** The 13-bit length, spread over bytes 3 to 5. */
  function FrameLength(h: seq<byte>): nat
    requires |h| >= ADTS_HEADER_SIZE
  {
    Or(Or(Shl(And(h[3], 3), 11), Shl(h[4], 3)), Shr(h[5], 5))
  }

  function Channels(h: seq<byte>): nat
    requires |h| >= ADTS_HEADER_SIZE
  {
    And(Shr(h[3], 4), 7)
  }

  /** The object type, AAC LC for 2. */
  function Profile(h: seq<byte>): nat
    requires |h| >= ADTS_HEADER_SIZE
  {
    And(Shr(h[2], 6), 3) + 1
  }

  function RateIndex(h: seq<byte>): nat
    requires |h| >= ADTS_HEADER_SIZE
  {
    And(Shr(h[2], 2), 0xF)
  }

  /** Where the standard has the channel configuration: the last bit of byte 2 and the first two of byte 3. */
  function StandardChannels(h: seq<byte>): nat
    requires |h| >= ADTS_HEADER_SIZE
  {
    Or(Shl(And(h[2], 1), 2), Shr(h[3], 6))
  }

  /** The bit protection_absent: 0 announces a checksum behind the header. */
  predicate AnnouncesChecksum(h: seq<byte>)
    requires |h| >= ADTS_HEADER_SIZE
  {
    And(h[1], 1) == 0
  }

  function BufferFullness(h: seq<byte>): nat
    requires |h| >= ADTS_HEADER_SIZE
  {
    Or(Shl(And(h[5], 0x1F), 6), Shr(h[6], 2))
  }

  predicate SyncWord(h: seq<byte>)
    requires |h| >= ADTS_HEADER_SIZE
  {
    h[0] == 0xFF && And(h[1], 0xF0) == 0xF0
  }

  /** The frames of a file, or None where a syncword or a length does not lead to the next frame. */
  function Walk(s: seq<byte>): Option<seq<seq<byte>>>
    decreases |s|
  {
    if s == [] then Some([])
    else if |s| < ADTS_HEADER_SIZE || !SyncWord(s) || !(ADTS_HEADER_SIZE <= FrameLength(s) <= |s|) then None
    else
      var n := FrameLength(s);
      match Walk(s[n..])
      case None => None
      case Some(rest) => Some([s[ADTS_HEADER_SIZE..n]] + rest)
  }

  // ----- the fields of the header

  lemma {:induction false} ShrShr(a: nat, j: nat, k: nat)
    ensures Shr(Shr(a, j), k) == Shr(a, j + k)
    decreases j
  {
    if j > 0 {
      ShrShr(a / 2, j - 1, k);
    }
  }

  /** x & (2^k - 1) and x >> k are remainder and quotient. */
  lemma MaskAndShift(x: nat, k: nat)
    ensures And(x, Pow2(k) - 1) < Pow2(k) && x == Shr(x, k) * Pow2(k) + And(x, Pow2(k) - 1)
  {
    AndMask(x, k);
    SplitAt(x, k);
  }

  lemma Below(x: nat, k: nat)
    ensures And(x, Pow2(k) - 1) < Pow2(k)
  {
    MaskAndShift(x, k);
  }

  lemma MaskAndShiftBy(x: nat, k: nat, p: nat)
    requires p == Pow2(k)
    ensures And(x, p - 1) < p && x == Shr(x, k) * p + And(x, p - 1)
  {
    MaskAndShift(x, k);
  }

  lemma Assemble(length: nat, s3: nat, s11: nat, q: nat, a: nat, b: nat, c: nat)
    requires length == s3 * 8 + c && s3 == s11 * 0x100 + b && s11 == q * 4 + a
    requires a < 4 && b < 0x100 && c < 8
    ensures a * 0x800 + b * 8 + c == length % 0x2000
  {
    assert length == 0x2000 * q + (a * 0x800 + b * 8 + c);
  }

  /** The three pieces of the length put together again: the 13 low bits. */
  lemma LengthPieces(length: nat)
    ensures var a, b, c := And(Shr(length, 11), 3), And(Shr(length, 3), 0xFF), And(length, 7);
      a < 4 && b < 0x100 && c < 8 && a * 0x800 + b * 8 + c == length % 0x2000
  {
    Pow2Values();
    var s3, s11 := Shr(length, 3), Shr(length, 11);
    MaskAndShiftBy(length, 3, 8);
    MaskAndShiftBy(s3, 8, 0x100);
    ShrShr(length, 3, 8);
    MaskAndShiftBy(s11, 2, 4);
    Assemble(length, s3, s11, Shr(s11, 2), And(s11, 3), And(s3, 0xFF), And(length, 7));
  }

  lemma SmallFields(aac: AacParams)
    ensures ProfileBits(aac.profile) < 4 && And(aac.sampleRateIndex, 0xF) < 16 && And(aac.channels, 7) < 8
  {
    Pow2Values();
    Below(if aac.profile == 0 then 3 else aac.profile - 1, 2);
    Below(aac.sampleRateIndex, 4);
    Below(aac.channels, 3);
  }

  /** No or-ed field overlaps another, and all bytes fit. */
  lemma HeaderFits(length: nat, aac: AacParams)
    ensures Shl(ProfileBits(aac.profile), 6) < 0x100 && Byte2(aac) < 0x100
    ensures Byte3(length, aac) == And(aac.channels, 7) * 16 + And(Shr(length, 11), 3) < 0x100
    ensures Byte4(length) < 0x100
    ensures Byte5(length) == And(length, 7) * 32 + 0x1F < 0x100
  {
    Pow2Values();
    LengthPieces(length);
    SmallFields(aac);
    OrDisjoint(ProfileBits(aac.profile), Shl(And(aac.sampleRateIndex, 0xF), 2), 6);
    OrDisjoint(And(aac.channels, 7), And(Shr(length, 11), 3), 4);
    OrDisjoint(And(length, 7), 0x1F, 5);
  }

  /** Reading the two or-ed bytes at the ends of the length field. */
  lemma ReadPieces(h3: byte, h5: byte, top: nat, a: nat, c: nat)
    requires h3 == top * 16 + a && a < 4 && h5 == c * 32 + 0x1F
    ensures And(h3, 3) == a && Shr(h5, 5) == c
  {
    Pow2Values();
    Unpack(h3, top * 4, a, 2);
    Unpack(h5, c, 0x1F, 5);
  }

  lemma JoinPieces(a: nat, b: nat, c: nat)
    requires b < 0x100 && c < 8
    ensures Or(Or(Shl(a, 11), Shl(b, 3)), c) == a * 0x800 + b * 8 + c
  {
    Pow2Values();
    OrDisjoint(a, Shl(b, 3), 11);
    OrDisjoint(a * 0x100 + b, c, 3);
  }

  lemma LengthReadBack(length: nat, aac: AacParams)
    ensures FrameLength(AdtsHeader(length, aac)) == length % 0x2000
  {
    var a, b, c := And(Shr(length, 11), 3), And(Shr(length, 3), 0xFF), And(length, 7);
    HeaderFits(length, aac);
    LengthPieces(length);
    ReadPieces(Byte3(length, aac), Byte5(length), And(aac.channels, 7), a, c);
    JoinPieces(a, b, c);
  }

  lemma ChannelsReadBack(length: nat, aac: AacParams)
    ensures Channels(AdtsHeader(length, aac)) == And(aac.channels, 7)
  {
    var c, a := And(aac.channels, 7), And(Shr(length, 11), 3);
    HeaderFits(length, aac);
    SmallFields(aac);
    LengthPieces(length);
    Pow2Values();
    Unpack(Byte3(length, aac), c, a, 4);
    Unpack(c, 0, c, 3);
  }

  lemma Fullness(h5: byte, h6: byte, c: nat)
    requires h5 == c * 32 + 0x1F && h6 == 0xFC
    ensures Or(Shl(And(h5, 0x1F), 6), Shr(h6, 2)) == 0x7FF
  {
    Pow2Values();
    Unpack(h5, c, 0x1F, 5);
    Unpack(h6, 0x3F, 0, 2);
    OrDisjoint(And(h5, 0x1F), Shr(h6, 2), 6);
  }

  lemma FullnessReadBack(length: nat, aac: AacParams)
    ensures BufferFullness(AdtsHeader(length, aac)) == 0x7FF
  {
    HeaderFits(length, aac);
    Fullness(Byte5(length), 0xFC, And(length, 7));
  }

  /** Byte 2 holds the profile and the index of the sample rate, and its last two bits are zero. */
  lemma Byte2Value(aac: AacParams)
    ensures Byte2(aac) == ProfileBits(aac.profile) * 64 + And(aac.sampleRateIndex, 0xF) * 4
  {
    Pow2Values();
    SmallFields(aac);
    OrDisjoint(ProfileBits(aac.profile), Shl(And(aac.sampleRateIndex, 0xF), 2), 6);
  }

  lemma SmallMask(x: nat, k: nat)
    requires x < Pow2(k)
    ensures And(x, Pow2(k) - 1) == x
  {
    Unpack(x, 0, x, k);
  }

  lemma ReadFormat(h2: byte, bits: nat, index: nat)
    requires h2 == bits * 64 + index * 4 && bits < 4 && index < 16
    ensures And(Shr(h2, 6), 3) == bits && And(Shr(h2, 2), 0xF) == index
  {
    Pow2Values();
    SmallMask(bits, 2);
    Unpack(h2, bits, index * 4, 6);
    Unpack(h2, bits * 16 + index, 0, 2);
    Unpack(bits * 16 + index, bits, index, 4);
  }

  /** Profiles 1 to 4 and the sixteen indices are read back; 0 is read as 4. */
  lemma FormatReadBack(length: nat, aac: AacParams)
    requires aac.profile <= 4 && aac.sampleRateIndex < 16
    ensures Profile(AdtsHeader(length, aac)) == if aac.profile == 0 then 4 else aac.profile
    ensures RateIndex(AdtsHeader(length, aac)) == aac.sampleRateIndex
  {
    var bits := if aac.profile == 0 then 3 else aac.profile - 1;
    MasksKeep(bits, aac.sampleRateIndex);
    HeaderFits(length, aac);
    Byte2Value(aac);
    ReadFormat(Byte2(aac), bits, aac.sampleRateIndex);
  }

  lemma MasksKeep(bits: nat, index: nat)
    requires bits < 4 && index < 16
    ensures And(bits, 3) == bits && And(index, 0xF) == index
  {
    Pow2Values();
    SmallMask(bits, 2);
    SmallMask(index, 4);
  }

  lemma ReadStandardChannels(h2: byte, h3: byte, q: nat, c: nat, a: nat)
    requires h2 == 2 * q && h3 == c * 16 + a && a < 4
    ensures Or(Shl(And(h2, 1), 2), Shr(h3, 6)) == c / 4
  {
    Pow2Values();
    Unpack(h2, q, 0, 1);
    Unpack(h3, c / 4, c % 4 * 16 + a, 6);
  }

  /** A reader that looks where the standard says finds the channels only if there are none to be told. */
  lemma StandardChannelsReadBackIff(length: nat, aac: AacParams)
    ensures StandardChannels(AdtsHeader(length, aac)) == aac.channels <==> aac.channels == 0
  {
    var c, a := And(aac.channels, 7), And(Shr(length, 11), 3);
    HeaderFits(length, aac);
    LengthPieces(length);
    Byte2Value(aac);
    ReadStandardChannels(Byte2(aac), Byte3(length, aac),
                         ProfileBits(aac.profile) * 32 + And(aac.sampleRateIndex, 0xF) * 2, c, a);
    LowThreeBits(aac.channels);
  }

  lemma LowThreeBits(x: nat)
    ensures And(x, 7) == x % 8
  {
    Pow2Values();
    Unpack(x, x / 8, x % 8, 3);
  }

  /** Every header announces a checksum, and none is written. */
  lemma ChecksumIsAnnounced(length: nat, aac: AacParams)
    ensures var h := AdtsHeader(length, aac); h[0] == 0xFF && h[1] == 0xF0 && AnnouncesChecksum(h)
  {
    Pow2Values();
    Unpack(0xF0, 0x78, 0, 1);
  }

  lemma SyncReadBack(length: nat, aac: AacParams)
    ensures SyncWord(AdtsHeader(length, aac))
  {
  }

  // ----- whole files

  /** write_aac(): nothing for an empty frame. */
  function AacChunk(frame: seq<byte>, aac: AacParams): seq<byte> {
    if frame == [] then [] else AdtsHeader(|frame| + ADTS_HEADER_SIZE, aac) + frame
  }

  function AacFile(frames: seq<seq<byte>>, aac: AacParams): seq<byte> {
    if frames == [] then [] else AacChunk(frames[0], aac) + AacFile(frames[1..], aac)
  }

  function NonEmpty(frames: seq<seq<byte>>): seq<seq<byte>> {
    if frames == [] then []
    else (if frames[0] == [] then [] else [frames[0]]) + NonEmpty(frames[1..])
  }

  ghost predicate AllFit(frames: seq<seq<byte>>) {
    forall i :: 0 <= i < |frames| ==> |frames[i]| <= MAX_FRAME
  }

  lemma FrameAt(h: seq<byte>, frame: seq<byte>, rest: seq<byte>)
    requires |h| == ADTS_HEADER_SIZE && SyncWord(h) && FrameLength(h) == |frame| + ADTS_HEADER_SIZE
    ensures var s := h + frame + rest;
      && SyncWord(s) && FrameLength(s) == |frame| + ADTS_HEADER_SIZE <= |s|
      && s[FrameLength(s)..] == rest && s[ADTS_HEADER_SIZE..FrameLength(s)] == frame
  {
    SameFields(h, frame + rest);
    Cut(h, frame, rest);
  }

  lemma HeaderOfFrame(frame: seq<byte>, aac: AacParams)
    requires |frame| <= MAX_FRAME
    ensures var h := AdtsHeader(|frame| + ADTS_HEADER_SIZE, aac);
      SyncWord(h) && FrameLength(h) == |frame| + ADTS_HEADER_SIZE
  {
    ShortLength(|frame| + ADTS_HEADER_SIZE, aac);
    SyncReadBack(|frame| + ADTS_HEADER_SIZE, aac);
  }

  lemma ShortLength(n: nat, aac: AacParams)
    requires n < 0x2000
    ensures FrameLength(AdtsHeader(n, aac)) == n
  {
    Remainder(n);
    LengthReadBack(n, aac);
  }

  lemma Remainder(n: nat)
    requires n < 0x2000
    ensures n % 0x2000 == n
  {
  }

  /** The first frame of a file, if syncword and length lead to its end. */
  lemma FirstFrame(frame: seq<byte>, aac: AacParams, rest: seq<byte>)
    requires 0 < |frame| <= MAX_FRAME
    ensures var s := AacChunk(frame, aac) + rest;
      && SyncWord(s) && FrameLength(s) == |frame| + ADTS_HEADER_SIZE <= |s|
      && s[FrameLength(s)..] == rest && s[ADTS_HEADER_SIZE..FrameLength(s)] == frame
  {
    var h := AdtsHeader(|frame| + ADTS_HEADER_SIZE, aac);
    HeaderOfFrame(frame, aac);
    FrameAt(h, frame, rest);
    assert AacChunk(frame, aac) == h + frame;
  }

  lemma Cut(h: seq<byte>, frame: seq<byte>, rest: seq<byte>)
    ensures var s := h + frame + rest;
      s == h + (frame + rest) && s[|h|..|h| + |frame|] == frame && s[|h| + |frame|..] == rest
  {
  }

  lemma SameFields(h: seq<byte>, rest: seq<byte>)
    requires |h| == ADTS_HEADER_SIZE
    ensures FrameLength(h + rest) == FrameLength(h) && SyncWord(h + rest) == SyncWord(h)
  {
  }

  lemma WalkFrame(frame: seq<byte>, aac: AacParams, rest: seq<byte>)
    requires 0 < |frame| <= MAX_FRAME
    ensures Walk(AacChunk(frame, aac) + rest) ==
      match Walk(rest) case None => None case Some(frames) => Some([frame] + frames)
  {
    FirstFrame(frame, aac, rest);
  }

  lemma {:induction false} WalkFile(frames: seq<seq<byte>>, aac: AacParams)
    requires AllFit(frames)
    ensures Walk(AacFile(frames, aac)) == Some(NonEmpty(frames))
    decreases |frames|
  {
    if frames != [] {
      WalkFile(frames[1..], aac);
      if frames[0] == [] {
        assert AacFile(frames, aac) == AacFile(frames[1..], aac) && NonEmpty(frames) == NonEmpty(frames[1..]);
      } else {
        WalkFrame(frames[0], aac, AacFile(frames[1..], aac));
      }
    }
  }

  lemma FrameLengthBound(h: seq<byte>)
    requires |h| >= ADTS_HEADER_SIZE
    ensures FrameLength(h) < 0x2000
  {
    Pow2Values();
    MaskAndShift(h[3], 2);
    MaskAndShift(h[5], 5);
    OrDisjoint(And(h[3], 3), Shl(h[4], 3), 11);
    OrDisjoint(And(h[3], 3) * 0x100 + h[4], Shr(h[5], 5), 3);
  }

  lemma {:induction false} WalkFindsSmallFrames(s: seq<byte>)
    requires Walk(s).Some?
    ensures AllFit(Walk(s).value)
    decreases |s|
  {
    if s != [] {
      FrameLengthBound(s);
      WalkFindsSmallFrames(s[FrameLength(s)..]);
    }
  }

  lemma {:induction false} NonEmptyFits(frames: seq<seq<byte>>)
    requires AllFit(NonEmpty(frames))
    ensures AllFit(frames)
    decreases |frames|
  {
    if frames != [] {
      var tail := NonEmpty(frames[1..]);
      var head := if frames[0] == [] then [] else [frames[0]];
      assert NonEmpty(frames) == head + tail;
      assert forall i :: 0 <= i < |tail| ==> tail[i] == NonEmpty(frames)[|head| + i];
      NonEmptyFits(frames[1..]);
      assert frames[0] != [] ==> NonEmpty(frames)[0] == frames[0];
      forall i | 0 <= i < |frames| ensures |frames[i]| <= MAX_FRAME {
        assert i > 0 ==> frames[i] == frames[1..][i - 1];
      }
    }
  }

  /** Walking the file gives back exactly the frames written, if and only if every frame fits the length field. */
  lemma WalkRecoversExactlyIfFramesFit(frames: seq<seq<byte>>, aac: AacParams)
    ensures Walk(AacFile(frames, aac)) == Some(NonEmpty(frames)) <==> AllFit(frames)
  {
    if AllFit(frames) {
      WalkFile(frames, aac);
    } else if Walk(AacFile(frames, aac)) == Some(NonEmpty(frames)) {
      WalkFindsSmallFrames(AacFile(frames, aac));
      NonEmptyFits(frames);
    }
  }
}
