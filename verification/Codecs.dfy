/** Codec identifiers on the wire and in FFmpeg, as in src/codec/demuxer.cpp. */
module Codecs {
  const ID_DISABLED := 0
  const ID_CONFIG_ERROR := 1
  const ID_H264 := 0x68323634
  const ID_H265 := 0x68323635
  const ID_AV1 := 0x00617631
  const ID_OPUS := 0x6f707573
  const ID_AAC := 0x00616163
  const ID_FLAC := 0x666c6163
  const ID_RAW := 0x00726177

  datatype AvCodec = AvNone | AvH264 | AvHevc | AvAv1 | AvOpus | AvAac | AvFlac | AvPcm

  /** `hasAv1` is the build option SCRCPY_LAVC_HAS_AV1. */
  function ToAvCodec(id: nat, hasAv1: bool): AvCodec {
    if id == ID_H264 then AvH264
    else if id == ID_H265 then AvHevc
    else if id == ID_AV1 then (if hasAv1 then AvAv1 else AvNone)
    else if id == ID_OPUS then AvOpus
    else if id == ID_AAC then AvAac
    else if id == ID_FLAC then AvFlac
    else if id == ID_RAW then AvPcm
    else AvNone
  }

  predicate IsVideo(codec: AvCodec) {
    codec.AvH264? || codec.AvHevc? || codec.AvAv1?
  }
}
