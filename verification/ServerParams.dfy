/**
  What the client tells the server of itself: the part of sc_server_params of src/server/server.hpp
  that is passed on, the enumerations of src/util/options.h and their names in
  src/server/sc_server_cmd_builder.cpp and .hpp.
 */
module ServerParams {
  import opened Wrappers
  import opened Orientation

  datatype LogLevel = Verbose | Debug | Info | Warn | Error
  datatype Codec = H264 | H265 | Av1 | Opus | Aac | Flac | Raw
  datatype VideoSource = Display | Camera
  datatype AudioSource =
    Auto | Output | Mic | Playback | MicUnprocessed | MicCamcorder | MicVoiceRecognition
    | MicVoiceCommunication | VoiceCall | VoiceCallUplink | VoiceCallDownlink | VoicePerformance
  datatype CameraFacing = Any | Front | Back | External
  datatype OrientationLock = Unlocked | LockedValue | LockedInitial
  datatype ImePolicy = Undefined | Local | Fallback | Hide

  const LIST_ENCODERS: bv8 := 0x1
  const LIST_DISPLAYS: bv8 := 0x2
  const LIST_CAMERAS: bv8 := 0x4
  const LIST_CAMERA_SIZES: bv8 := 0x8
  const LIST_APPS: bv8 := 0x10

  /** A text is None for a null pointer; times are in microseconds, negative for none. */
  datatype Params = Params(
    scid: nat, logLevel: LogLevel,
    video: bool, audio: bool, control: bool,
    videoBitRate: nat, audioBitRate: nat,
    videoCodec: Codec, audioCodec: Codec,
    videoSource: VideoSource, audioSource: AudioSource, audioDup: bool,
    maxFps: Option<string>, angle: Option<string>,
    captureOrientation: Orientation, captureLock: OrientationLock,
    crop: Option<string>, maxSize: nat, displayId: nat,
    cameraId: Option<string>, cameraSize: Option<string>, cameraFacing: CameraFacing,
    cameraAr: Option<string>, cameraFps: nat, cameraHighSpeed: bool,
    showTouches: bool, stayAwake: bool, screenOffTimeout: int,
    videoCodecOptions: Option<string>, audioCodecOptions: Option<string>,
    videoEncoder: Option<string>, audioEncoder: Option<string>,
    clipboardAutosync: bool, downsizeOnError: bool, cleanup: bool,
    powerOn: bool, powerOffOnClose: bool,
    newDisplay: Option<string>, imePolicy: ImePolicy,
    vdDestroyContent: bool, vdSystemDecorations: bool,
    list: bv8)
  {
    /** The name tables assert it: "auto" is resolved before the server is started. */
    predicate Valid() {
      audio ==> audioSource != Auto
    }
  }

  function LogLevelName(l: LogLevel): string {
    match l
    case Verbose => "verbose"
    case Debug => "debug"
    case Info => "info"
    case Warn => "warn"
    case Error => "error"
  }

  function CodecName(c: Codec): string {
    match c
    case H264 => "h264"
    case H265 => "h265"
    case Av1 => "av1"
    case Opus => "opus"
    case Aac => "aac"
    case Flac => "flac"
    case Raw => "raw"
  }

  function AudioSourceName(a: AudioSource): string
    requires a != Auto
  {
    match a
    case Output => "output"
    case Mic => "mic"
    case Playback => "playback"
    case MicUnprocessed => "mic-unprocessed"
    case MicCamcorder => "mic-camcorder"
    case MicVoiceRecognition => "mic-voice-recognition"
    case MicVoiceCommunication => "mic-voice-communication"
    case VoiceCall => "voice-call"
    case VoiceCallUplink => "voice-call-uplink"
    case VoiceCallDownlink => "voice-call-downlink"
    case VoicePerformance => "voice-performance"
  }

  function FacingName(f: CameraFacing): string
    requires f != Any
  {
    match f
    case Front => "front"
    case Back => "back"
    case External => "external"
  }

  function ImePolicyName(i: ImePolicy): string
    requires i != Undefined
  {
    match i
    case Local => "local"
    case Fallback => "fallback"
    case Hide => "hide"
  }

  /** sc_orientation_get_name() */
  function OrientationName(o: Orientation): string {
    if o == 0 then "0" else if o == 1 then "90" else if o == 2 then "180" else if o == 3 then "270"
    else if o == 4 then "flip0" else if o == 5 then "flip90" else if o == 6 then "flip180" else "flip270"
  }

  // ----- reading the names back

  function ParseLogLevel(s: string): LogLevel {
    if s == "verbose" then Verbose else if s == "debug" then Debug else if s == "info" then Info
    else if s == "warn" then Warn else Error
  }

  function ParseCodec(s: string): Codec {
    if s == "h264" then H264 else if s == "h265" then H265 else if s == "av1" then Av1
    else if s == "opus" then Opus else if s == "aac" then Aac else if s == "flac" then Flac else Raw
  }

  function ParseAudioSource(s: string): AudioSource {
    if s == "output" then Output else if s == "mic" then Mic else if s == "playback" then Playback
    else if s == "mic-unprocessed" then MicUnprocessed else if s == "mic-camcorder" then MicCamcorder
    else if s == "mic-voice-recognition" then MicVoiceRecognition
    else if s == "mic-voice-communication" then MicVoiceCommunication
    else if s == "voice-call" then VoiceCall else if s == "voice-call-uplink" then VoiceCallUplink
    else if s == "voice-call-downlink" then VoiceCallDownlink else VoicePerformance
  }

  function ParseFacing(s: string): CameraFacing {
    if s == "front" then Front else if s == "back" then Back else External
  }

  function ParseImePolicy(s: string): ImePolicy {
    if s == "local" then Local else if s == "fallback" then Fallback else Hide
  }

  function ParseOrientation(s: string): Orientation {
    if s == "0" then 0 else if s == "90" then 1 else if s == "180" then 2 else if s == "270" then 3
    else if s == "flip0" then 4 else if s == "flip90" then 5 else if s == "flip180" then 6 else 7
  }

  lemma LogLevelReadBack(l: LogLevel)
    ensures ParseLogLevel(LogLevelName(l)) == l
  {
  }

  lemma CodecReadBack(c: Codec)
    ensures ParseCodec(CodecName(c)) == c
  {
    assert "h264"[3] != "h265"[3] && "opus"[0] != "flac"[0] && "h265"[0] != "opus"[0] && "h265"[0] != "flac"[0];
    assert "av1"[1] != "aac"[1] && "aac"[0] != "raw"[0] && "av1"[0] != "raw"[0];
  }

  lemma AudioSourceReadBack(a: AudioSource)
    requires a != Auto
    ensures ParseAudioSource(AudioSourceName(a)) == a
  {
  }

  lemma FacingReadBack(f: CameraFacing)
    requires f != Any
    ensures ParseFacing(FacingName(f)) == f
  {
  }

  lemma ImePolicyReadBack(i: ImePolicy)
    requires i != Undefined
    ensures ParseImePolicy(ImePolicyName(i)) == i
  {
  }

  lemma OrientationReadBack(o: Orientation)
    ensures ParseOrientation(OrientationName(o)) == o
    ensures var n := OrientationName(o); n != "" && n[0] != '@'
  {
  }
}
