/**
  The arguments of src/server/sc_server_cmd_builder.cpp letter by letter: which texts are in the vector
  for which parameters, for every key, with keys and names written out.
 */
module CmdArguments {
  import opened Wrappers
  import opened Numerals
  import opened ServerParams
  import opened Orientation
  import opened CmdFormat

  /** All printed arguments. */
  function Args(p: Params, tunnelForward: bool): seq<string>
    requires p.Valid()
  {
    Render(Printed(p, tunnelForward).pairs)
  }

  lemma ArgTellsPair(pair: Pair, k: Key, v: string)
    ensures Arg(pair) == Name(k) + "=" + v <==> pair == Pair(k, v)
  {
    CutArg(pair);
    CutArg(Pair(k, v));
    if Arg(pair) == Arg(Pair(k, v)) {
      NamesDistinct(pair.key, k);
    }
  }

  lemma ArgIsRendered(pairs: seq<Pair>, k: Key, v: string)
    ensures Name(k) + "=" + v in Render(pairs) <==> Pair(k, v) in pairs
  {
    forall i | 0 <= i < |pairs| ensures Render(pairs)[i] == Name(k) + "=" + v <==> pairs[i] == Pair(k, v) {
      ArgTellsPair(pairs[i], k, v);
    }
    if Pair(k, v) in pairs {
      var i :| 0 <= i < |pairs| && pairs[i] == Pair(k, v);
      assert Render(pairs)[i] == Name(k) + "=" + v;
    }
  }

  ghost predicate Prints(entries: seq<Entry>, i: nat, k: Key, v: string)
    requires i < |entries|
  {
    entries[i].key == k && entries[i].value == Some(v)
  }

  lemma {:induction false} BuiltHolds(n: nat, entries: seq<Entry>, k: Key, v: string)
    requires n <= |entries| && Built(n, entries).ok
    ensures Pair(k, v) in Built(n, entries).pairs <==> exists i :: 0 <= i < n && Prints(entries, i, k, v)
  {
    if n > 0 {
      BuiltHolds(n - 1, entries, k, v);
      if Pair(k, v) in Built(n, entries).pairs && Pair(k, v) !in Built(n - 1, entries).pairs {
        assert Prints(entries, n - 1, k, v);
      }
    }
  }

  /** The argument `name=v` is there if and only if v is the value printed for that key. */
  lemma ArgIsThere(k: Key, p: Params, tunnelForward: bool, v: string)
    requires p.Valid() && TextsClean(p)
    ensures Name(k) + "=" + v in Args(p, tunnelForward) <==> Value(k, p, tunnelForward) == Some(v)
  {
    var entries := Entries(p, tunnelForward);
    PrintedIffTextsClean(p, tunnelForward);
    ArgIsRendered(Printed(p, tunnelForward).pairs, k, v);
    BuiltHolds(KEYS, entries, k, v);
    KeyAtIndex(k);
    if Value(k, p, tunnelForward) == Some(v) {
      assert Prints(entries, Index(k), k, v);
    }
    if i :| 0 <= i < KEYS && Prints(entries, i, k, v) {
      IndexOfKeyAt(i);
    }
  }

  predicate ScidArgument(args: seq<string>, p: Params, v: string) {
    "scid=" + v in args <==> v == Print(p.scid, 16)
  }

  lemma ScidWritten(p: Params, tunnelForward: bool, v: string)
    requires p.Valid() && TextsClean(p)
    ensures ScidArgument(Args(p, tunnelForward), p, v)
  {
    ArgIsThere(Scid, p, tunnelForward, v);
    assert Name(Scid) + "=" == "scid=";
  }

  predicate EnabledArguments(args: seq<string>, p: Params, v: string) {
    && ("video=" + v in args <==> !p.video && v == "false")
    && ("audio=" + v in args <==> !p.audio && v == "false")
  }

  lemma EnabledWritten(p: Params, tunnelForward: bool, v: string)
    requires p.Valid() && TextsClean(p)
    ensures EnabledArguments(Args(p, tunnelForward), p, v)
  {
    ArgIsThere(Video, p, tunnelForward, v);
    assert Name(Video) + "=" == "video=";
    ArgIsThere(Audio, p, tunnelForward, v);
    assert Name(Audio) + "=" == "audio=";
  }

  predicate ControlArgument(args: seq<string>, p: Params, v: string) {
    "control=" + v in args <==> !p.control && v == "false"
  }

  lemma ControlWritten(p: Params, tunnelForward: bool, v: string)
    requires p.Valid() && TextsClean(p)
    ensures ControlArgument(Args(p, tunnelForward), p, v)
  {
    ArgIsThere(Control, p, tunnelForward, v);
    assert Name(Control) + "=" == "control=";
  }

  predicate RateArguments(args: seq<string>, p: Params, v: string) {
    && ("video_bit_rate=" + v in args <==> p.videoBitRate != 0 && v == Print(p.videoBitRate, 10))
    && ("audio_bit_rate=" + v in args <==> p.audioBitRate != 0 && v == Print(p.audioBitRate, 10))
    && ("camera_fps=" + v in args <==> p.cameraFps != 0 && v == Print(p.cameraFps, 10))
  }

  lemma RateWritten(p: Params, tunnelForward: bool, v: string)
    requires p.Valid() && TextsClean(p)
    ensures RateArguments(Args(p, tunnelForward), p, v)
  {
    ArgIsThere(VideoBitRate, p, tunnelForward, v);
    assert Name(VideoBitRate) + "=" == "video_bit_rate=";
    ArgIsThere(AudioBitRate, p, tunnelForward, v);
    assert Name(AudioBitRate) + "=" == "audio_bit_rate=";
    ArgIsThere(CameraFps, p, tunnelForward, v);
    assert Name(CameraFps) + "=" == "camera_fps=";
  }

  predicate SizeArguments(args: seq<string>, p: Params, v: string) {
    && ("max_size=" + v in args <==> p.maxSize != 0 && v == Print(p.maxSize, 10))
    && ("display_id=" + v in args <==> p.displayId != 0 && v == Print(p.displayId, 10))
  }

  lemma SizeWritten(p: Params, tunnelForward: bool, v: string)
    requires p.Valid() && TextsClean(p)
    ensures SizeArguments(Args(p, tunnelForward), p, v)
  {
    ArgIsThere(MaxSize, p, tunnelForward, v);
    assert Name(MaxSize) + "=" == "max_size=";
    ArgIsThere(DisplayId, p, tunnelForward, v);
    assert Name(DisplayId) + "=" == "display_id=";
  }

  predicate CaptureTextArguments(args: seq<string>, p: Params, v: string) {
    && ("max_fps=" + v in args <==> p.maxFps == Some(v))
    && ("angle=" + v in args <==> p.angle == Some(v))
  }

  lemma CaptureTextWritten(p: Params, tunnelForward: bool, v: string)
    requires p.Valid() && TextsClean(p)
    ensures CaptureTextArguments(Args(p, tunnelForward), p, v)
  {
    ArgIsThere(MaxFps, p, tunnelForward, v);
    assert Name(MaxFps) + "=" == "max_fps=";
    ArgIsThere(Angle, p, tunnelForward, v);
    assert Name(Angle) + "=" == "angle=";
  }

  predicate PictureTextArguments(args: seq<string>, p: Params, v: string) {
    && ("crop=" + v in args <==> p.crop == Some(v))
    && ("new_display=" + v in args <==> p.newDisplay == Some(v))
  }

  lemma PictureTextWritten(p: Params, tunnelForward: bool, v: string)
    requires p.Valid() && TextsClean(p)
    ensures PictureTextArguments(Args(p, tunnelForward), p, v)
  {
    ArgIsThere(Crop, p, tunnelForward, v);
    assert Name(Crop) + "=" == "crop=";
    ArgIsThere(NewDisplay, p, tunnelForward, v);
    assert Name(NewDisplay) + "=" == "new_display=";
  }

  predicate CameraTextArguments(args: seq<string>, p: Params, v: string) {
    && ("camera_id=" + v in args <==> p.cameraId == Some(v))
    && ("camera_size=" + v in args <==> p.cameraSize == Some(v))
    && ("camera_ar=" + v in args <==> p.cameraAr == Some(v))
  }

  lemma CameraTextWritten(p: Params, tunnelForward: bool, v: string)
    requires p.Valid() && TextsClean(p)
    ensures CameraTextArguments(Args(p, tunnelForward), p, v)
  {
    ArgIsThere(CameraId, p, tunnelForward, v);
    assert Name(CameraId) + "=" == "camera_id=";
    ArgIsThere(CameraSize, p, tunnelForward, v);
    assert Name(CameraSize) + "=" == "camera_size=";
    ArgIsThere(CameraAr, p, tunnelForward, v);
    assert Name(CameraAr) + "=" == "camera_ar=";
  }

  predicate OptionTextArguments(args: seq<string>, p: Params, v: string) {
    && ("video_codec_options=" + v in args <==> p.videoCodecOptions == Some(v))
    && ("audio_codec_options=" + v in args <==> p.audioCodecOptions == Some(v))
  }

  lemma OptionTextWritten(p: Params, tunnelForward: bool, v: string)
    requires p.Valid() && TextsClean(p)
    ensures OptionTextArguments(Args(p, tunnelForward), p, v)
  {
    ArgIsThere(VideoCodecOptions, p, tunnelForward, v);
    assert Name(VideoCodecOptions) + "=" == "video_codec_options=";
    ArgIsThere(AudioCodecOptions, p, tunnelForward, v);
    assert Name(AudioCodecOptions) + "=" == "audio_codec_options=";
  }

  predicate VideoEncoderArgument(args: seq<string>, p: Params, v: string) {
    "video_encoder=" + v in args <==> p.videoEncoder == Some(v)
  }

  lemma VideoEncoderWritten(p: Params, tunnelForward: bool, v: string)
    requires p.Valid() && TextsClean(p)
    ensures VideoEncoderArgument(Args(p, tunnelForward), p, v)
  {
    ArgIsThere(VideoEncoder, p, tunnelForward, v);
    assert Name(VideoEncoder) + "=" == "video_encoder=";
  }

  predicate AudioEncoderArgument(args: seq<string>, p: Params, v: string) {
    "audio_encoder=" + v in args <==> p.audioEncoder == Some(v)
  }

  lemma AudioEncoderWritten(p: Params, tunnelForward: bool, v: string)
    requires p.Valid() && TextsClean(p)
    ensures AudioEncoderArgument(Args(p, tunnelForward), p, v)
  {
    ArgIsThere(AudioEncoder, p, tunnelForward, v);
    assert Name(AudioEncoder) + "=" == "audio_encoder=";
  }

  predicate DeviceArguments(args: seq<string>, p: Params, v: string) {
    && ("camera_high_speed=" + v in args <==> p.cameraHighSpeed && v == "true")
    && ("show_touches=" + v in args <==> p.showTouches && v == "true")
    && ("stay_awake=" + v in args <==> p.stayAwake && v == "true")
  }

  lemma DeviceWritten(p: Params, tunnelForward: bool, v: string)
    requires p.Valid() && TextsClean(p)
    ensures DeviceArguments(Args(p, tunnelForward), p, v)
  {
    ArgIsThere(CameraHighSpeed, p, tunnelForward, v);
    assert Name(CameraHighSpeed) + "=" == "camera_high_speed=";
    ArgIsThere(ShowTouches, p, tunnelForward, v);
    assert Name(ShowTouches) + "=" == "show_touches=";
    ArgIsThere(StayAwake, p, tunnelForward, v);
    assert Name(StayAwake) + "=" == "stay_awake=";
  }

  predicate ClipboardArgument(args: seq<string>, p: Params, v: string) {
    "clipboard_autosync=" + v in args <==> !p.clipboardAutosync && v == "false"
  }

  lemma ClipboardWritten(p: Params, tunnelForward: bool, v: string)
    requires p.Valid() && TextsClean(p)
    ensures ClipboardArgument(Args(p, tunnelForward), p, v)
  {
    ArgIsThere(ClipboardAutosync, p, tunnelForward, v);
    assert Name(ClipboardAutosync) + "=" == "clipboard_autosync=";
  }

  predicate DownsizeArgument(args: seq<string>, p: Params, v: string) {
    "downsize_on_error=" + v in args <==> !p.downsizeOnError && v == "false"
  }

  lemma DownsizeWritten(p: Params, tunnelForward: bool, v: string)
    requires p.Valid() && TextsClean(p)
    ensures DownsizeArgument(Args(p, tunnelForward), p, v)
  {
    ArgIsThere(DownsizeOnError, p, tunnelForward, v);
    assert Name(DownsizeOnError) + "=" == "downsize_on_error=";
  }

  predicate CleanupArgument(args: seq<string>, p: Params, v: string) {
    "cleanup=" + v in args <==> !p.cleanup && v == "false"
  }

  lemma CleanupWritten(p: Params, tunnelForward: bool, v: string)
    requires p.Valid() && TextsClean(p)
    ensures CleanupArgument(Args(p, tunnelForward), p, v)
  {
    ArgIsThere(Cleanup, p, tunnelForward, v);
    assert Name(Cleanup) + "=" == "cleanup=";
  }

  predicate PowerOnArgument(args: seq<string>, p: Params, v: string) {
    "power_on=" + v in args <==> !p.powerOn && v == "false"
  }

  lemma PowerOnWritten(p: Params, tunnelForward: bool, v: string)
    requires p.Valid() && TextsClean(p)
    ensures PowerOnArgument(Args(p, tunnelForward), p, v)
  {
    ArgIsThere(PowerOn, p, tunnelForward, v);
    assert Name(PowerOn) + "=" == "power_on=";
  }

  predicate PowerOffArgument(args: seq<string>, p: Params, v: string) {
    "power_off_on_close=" + v in args <==> !p.powerOffOnClose && v == "false"
  }

  lemma PowerOffWritten(p: Params, tunnelForward: bool, v: string)
    requires p.Valid() && TextsClean(p)
    ensures PowerOffArgument(Args(p, tunnelForward), p, v)
  {
    ArgIsThere(PowerOffOnClose, p, tunnelForward, v);
    assert Name(PowerOffOnClose) + "=" == "power_off_on_close=";
  }

  predicate ScreenOffTimeoutArgument(args: seq<string>, p: Params, v: string) {
    "screen_off_timeout=" + v in args <==> p.screenOffTimeout >= 0 && v == Print(p.screenOffTimeout / 1000, 10)
  }

  lemma ScreenOffTimeoutWritten(p: Params, tunnelForward: bool, v: string)
    requires p.Valid() && TextsClean(p)
    ensures ScreenOffTimeoutArgument(Args(p, tunnelForward), p, v)
  {
    ArgIsThere(ScreenOffTimeout, p, tunnelForward, v);
    assert Name(ScreenOffTimeout) + "=" == "screen_off_timeout=";
  }

  predicate VdDestroyContentArgument(args: seq<string>, p: Params, v: string) {
    "vd_destroy_content=" + v in args <==> !p.vdDestroyContent && v == "false"
  }

  lemma VdDestroyContentWritten(p: Params, tunnelForward: bool, v: string)
    requires p.Valid() && TextsClean(p)
    ensures VdDestroyContentArgument(Args(p, tunnelForward), p, v)
  {
    ArgIsThere(VdDestroyContent, p, tunnelForward, v);
    assert Name(VdDestroyContent) + "=" == "vd_destroy_content=";
  }

  predicate VdSystemDecorationsArgument(args: seq<string>, p: Params, v: string) {
    "vd_system_decorations=" + v in args <==> !p.vdSystemDecorations && v == "false"
  }

  lemma VdSystemDecorationsWritten(p: Params, tunnelForward: bool, v: string)
    requires p.Valid() && TextsClean(p)
    ensures VdSystemDecorationsArgument(Args(p, tunnelForward), p, v)
  {
    ArgIsThere(VdSystemDecorations, p, tunnelForward, v);
    assert Name(VdSystemDecorations) + "=" == "vd_system_decorations=";
  }

  predicate TunnelForwardArgument(args: seq<string>, tunnelForward: bool, v: string) {
    "tunnel_forward=" + v in args <==> tunnelForward && v == "true"
  }

  lemma TunnelForwardWritten(p: Params, tunnelForward: bool, v: string)
    requires p.Valid() && TextsClean(p)
    ensures TunnelForwardArgument(Args(p, tunnelForward), tunnelForward, v)
  {
    ArgIsThere(TunnelForward, p, tunnelForward, v);
    assert Name(TunnelForward) + "=" == "tunnel_forward=";
  }

  predicate ListEncodersArgument(args: seq<string>, p: Params, v: string) {
    "list_encoders=" + v in args <==> p.list & 1 != 0 && v == "true"
  }

  lemma ListEncodersWritten(p: Params, tunnelForward: bool, v: string)
    requires p.Valid() && TextsClean(p)
    ensures ListEncodersArgument(Args(p, tunnelForward), p, v)
  {
    ArgIsThere(ListEncoders, p, tunnelForward, v);
    assert Name(ListEncoders) + "=" == "list_encoders=";
  }

  predicate ListDisplaysArgument(args: seq<string>, p: Params, v: string) {
    "list_displays=" + v in args <==> p.list & 2 != 0 && v == "true"
  }

  lemma ListDisplaysWritten(p: Params, tunnelForward: bool, v: string)
    requires p.Valid() && TextsClean(p)
    ensures ListDisplaysArgument(Args(p, tunnelForward), p, v)
  {
    ArgIsThere(ListDisplays, p, tunnelForward, v);
    assert Name(ListDisplays) + "=" == "list_displays=";
  }

  predicate ListAppsArgument(args: seq<string>, p: Params, v: string) {
    "list_apps=" + v in args <==> p.list & 16 != 0 && v == "true"
  }

  lemma ListAppsWritten(p: Params, tunnelForward: bool, v: string)
    requires p.Valid() && TextsClean(p)
    ensures ListAppsArgument(Args(p, tunnelForward), p, v)
  {
    ArgIsThere(ListApps, p, tunnelForward, v);
    assert Name(ListApps) + "=" == "list_apps=";
  }

  predicate ListCamerasArgument(args: seq<string>, p: Params, v: string) {
    "list_cameras=" + v in args <==> p.list & 4 != 0 && v == "true"
  }

  lemma ListCamerasWritten(p: Params, tunnelForward: bool, v: string)
    requires p.Valid() && TextsClean(p)
    ensures ListCamerasArgument(Args(p, tunnelForward), p, v)
  {
    ArgIsThere(ListCameras, p, tunnelForward, v);
    assert Name(ListCameras) + "=" == "list_cameras=";
  }

  predicate ListCameraSizesArgument(args: seq<string>, p: Params, v: string) {
    "list_camera_sizes=" + v in args <==> p.list & 8 != 0 && v == "true"
  }

  lemma ListCameraSizesWritten(p: Params, tunnelForward: bool, v: string)
    requires p.Valid() && TextsClean(p)
    ensures ListCameraSizesArgument(Args(p, tunnelForward), p, v)
  {
    ArgIsThere(ListCameraSizes, p, tunnelForward, v);
    assert Name(ListCameraSizes) + "=" == "list_camera_sizes=";
  }

  predicate VideoCodecArgument(args: seq<string>, p: Params, v: string) {
    "video_codec=" + v in args <==>
         || (p.videoCodec == H265 && v == "h265")
         || (p.videoCodec == Av1 && v == "av1")
         || (p.videoCodec == Opus && v == "opus")
         || (p.videoCodec == Aac && v == "aac")
         || (p.videoCodec == Flac && v == "flac")
         || (p.videoCodec == Raw && v == "raw")
  }

  lemma VideoCodecWritten(p: Params, tunnelForward: bool, v: string)
    requires p.Valid() && TextsClean(p)
    ensures VideoCodecArgument(Args(p, tunnelForward), p, v)
  {
    ArgIsThere(VideoCodec, p, tunnelForward, v);
    assert Name(VideoCodec) + "=" == "video_codec=";
  }

  predicate AudioCodecArgument(args: seq<string>, p: Params, v: string) {
    "audio_codec=" + v in args <==>
         || (p.audioCodec == H264 && v == "h264")
         || (p.audioCodec == H265 && v == "h265")
         || (p.audioCodec == Av1 && v == "av1")
         || (p.audioCodec == Aac && v == "aac")
         || (p.audioCodec == Flac && v == "flac")
         || (p.audioCodec == Raw && v == "raw")
  }

  lemma AudioCodecWritten(p: Params, tunnelForward: bool, v: string)
    requires p.Valid() && TextsClean(p)
    ensures AudioCodecArgument(Args(p, tunnelForward), p, v)
  {
    ArgIsThere(AudioCodec, p, tunnelForward, v);
    assert Name(AudioCodec) + "=" == "audio_codec=";
  }

  predicate LogLevelArgument(args: seq<string>, p: Params, v: string) {
    "log_level=" + v in args <==>
         || (p.logLevel == Verbose && v == "verbose")
         || (p.logLevel == Debug && v == "debug")
         || (p.logLevel == Info && v == "info")
         || (p.logLevel == Warn && v == "warn")
         || (p.logLevel == Error && v == "error")
  }

  lemma LogLevelWritten(p: Params, tunnelForward: bool, v: string)
    requires p.Valid() && TextsClean(p)
    ensures LogLevelArgument(Args(p, tunnelForward), p, v)
  {
    ArgIsThere(LogLevelKey, p, tunnelForward, v);
    assert Name(LogLevelKey) + "=" == "log_level=";
  }

  predicate SourceArguments(args: seq<string>, p: Params, v: string) {
    && ("video_source=" + v in args <==> p.videoSource == Camera && v == "camera")
    && ("audio_dup=" + v in args <==> p.audioDup && v == "1")
  }

  lemma SourceWritten(p: Params, tunnelForward: bool, v: string)
    requires p.Valid() && TextsClean(p)
    ensures SourceArguments(Args(p, tunnelForward), p, v)
  {
    ArgIsThere(VideoSourceKey, p, tunnelForward, v);
    assert Name(VideoSourceKey) + "=" == "video_source=";
    ArgIsThere(AudioDup, p, tunnelForward, v);
    assert Name(AudioDup) + "=" == "audio_dup=";
  }

  predicate FacingArguments(args: seq<string>, p: Params, v: string) {
    && ("camera_facing=" + v in args <==>
         || (p.cameraFacing == Front && v == "front")
         || (p.cameraFacing == Back && v == "back")
         || (p.cameraFacing == External && v == "external"))
    && ("display_ime_policy=" + v in args <==>
         || (p.imePolicy == Local && v == "local")
         || (p.imePolicy == Fallback && v == "fallback")
         || (p.imePolicy == Hide && v == "hide"))
  }

  lemma FacingWritten(p: Params, tunnelForward: bool, v: string)
    requires p.Valid() && TextsClean(p)
    ensures FacingArguments(Args(p, tunnelForward), p, v)
  {
    ArgIsThere(CameraFacingKey, p, tunnelForward, v);
    assert Name(CameraFacingKey) + "=" == "camera_facing=";
    ArgIsThere(ImePolicyKey, p, tunnelForward, v);
    assert Name(ImePolicyKey) + "=" == "display_ime_policy=";
  }

  /** The audio source is printed only with audio. */
  predicate AudioSourceArgument(args: seq<string>, p: Params, v: string) {
    "audio_source=" + v in args <==>
      && p.audio
      && (|| (p.audioSource == Mic && v == "mic")
          || (p.audioSource == Playback && v == "playback")
          || (p.audioSource == MicUnprocessed && v == "mic-unprocessed")
          || (p.audioSource == MicCamcorder && v == "mic-camcorder")
          || (p.audioSource == MicVoiceRecognition && v == "mic-voice-recognition")
          || (p.audioSource == MicVoiceCommunication && v == "mic-voice-communication")
          || (p.audioSource == VoiceCall && v == "voice-call")
          || (p.audioSource == VoiceCallUplink && v == "voice-call-uplink")
          || (p.audioSource == VoiceCallDownlink && v == "voice-call-downlink")
          || (p.audioSource == VoicePerformance && v == "voice-performance"))
  }

  lemma AudioSourceWritten(p: Params, tunnelForward: bool, v: string)
    requires p.Valid() && TextsClean(p)
    ensures AudioSourceArgument(Args(p, tunnelForward), p, v)
  {
    ArgIsThere(AudioSourceKey, p, tunnelForward, v);
    assert Name(AudioSourceKey) + "=" == "audio_source=";
  }

  /** A rotation, or a flip and a rotation, in degrees. */
  predicate Degrees(o: Orientation, s: string) {
    || (o == 0 && s == "0") || (o == 1 && s == "90") || (o == 2 && s == "180") || (o == 3 && s == "270")
    || (o == 4 && s == "flip0") || (o == 5 && s == "flip90") || (o == 6 && s == "flip180") || (o == 7 && s == "flip270")
  }

  /** "@" alone locks the initial orientation of the device, "@" in front of another one locks that. */
  predicate CaptureOrientationArgument(args: seq<string>, p: Params, v: string) {
    "capture_orientation=" + v in args <==>
      || (p.captureLock == LockedInitial && v == "@")
      || (p.captureLock == LockedValue && v != "" && v[0] == '@' && Degrees(p.captureOrientation, v[1..]))
      || (p.captureLock == Unlocked && p.captureOrientation != 0 && Degrees(p.captureOrientation, v))
  }

  lemma CaptureOrientationWritten(p: Params, tunnelForward: bool, v: string)
    requires p.Valid() && TextsClean(p)
    ensures CaptureOrientationArgument(Args(p, tunnelForward), p, v)
  {
    ArgIsThere(CaptureOrientation, p, tunnelForward, v);
    assert Name(CaptureOrientation) + "=" == "capture_orientation=";
    OrientationIsDegrees(p.captureOrientation, v);
    LockedIsDegrees(p.captureOrientation, v);
    assert "" + OrientationName(p.captureOrientation) == OrientationName(p.captureOrientation);
  }

  lemma LockedIsDegrees(o: Orientation, s: string)
    ensures s != "" && s[0] == '@' && Degrees(o, s[1..]) <==> s == "@" + OrientationName(o)
  {
    if s != "" {
      OrientationIsDegrees(o, s[1..]);
      assert [s[0]] + s[1..] == s;
    }
    assert ("@" + OrientationName(o))[1..] == OrientationName(o);
  }

  lemma OrientationIsDegrees(o: Orientation, s: string)
    ensures Degrees(o, s) <==> s == OrientationName(o)
  {
  }

  predicate NumbersAndTexts(args: seq<string>, p: Params, v: string) {
    && ScidArgument(args, p, v) && EnabledArguments(args, p, v)
    && ControlArgument(args, p, v) && RateArguments(args, p, v)
    && SizeArguments(args, p, v) && CaptureTextArguments(args, p, v)
    && PictureTextArguments(args, p, v) && CameraTextArguments(args, p, v)
    && OptionTextArguments(args, p, v) && VideoEncoderArgument(args, p, v)
    && AudioEncoderArgument(args, p, v)
  }

  lemma NumbersAndTextsWritten(p: Params, tunnelForward: bool, v: string)
    requires p.Valid() && TextsClean(p)
    ensures NumbersAndTexts(Args(p, tunnelForward), p, v)
  {
    ScidWritten(p, tunnelForward, v);
    EnabledWritten(p, tunnelForward, v);
    ControlWritten(p, tunnelForward, v);
    RateWritten(p, tunnelForward, v);
    SizeWritten(p, tunnelForward, v);
    CaptureTextWritten(p, tunnelForward, v);
    PictureTextWritten(p, tunnelForward, v);
    CameraTextWritten(p, tunnelForward, v);
    OptionTextWritten(p, tunnelForward, v);
    VideoEncoderWritten(p, tunnelForward, v);
    AudioEncoderWritten(p, tunnelForward, v);
  }

  predicate Flags(args: seq<string>, p: Params, v: string) {
    && DeviceArguments(args, p, v) && ClipboardArgument(args, p, v)
    && DownsizeArgument(args, p, v) && CleanupArgument(args, p, v)
    && PowerOnArgument(args, p, v) && PowerOffArgument(args, p, v)
    && VdDestroyContentArgument(args, p, v) && VdSystemDecorationsArgument(args, p, v)
  }

  lemma FlagsWritten(p: Params, tunnelForward: bool, v: string)
    requires p.Valid() && TextsClean(p)
    ensures Flags(Args(p, tunnelForward), p, v)
  {
    DeviceWritten(p, tunnelForward, v);
    ClipboardWritten(p, tunnelForward, v);
    DownsizeWritten(p, tunnelForward, v);
    CleanupWritten(p, tunnelForward, v);
    PowerOnWritten(p, tunnelForward, v);
    PowerOffWritten(p, tunnelForward, v);
    VdDestroyContentWritten(p, tunnelForward, v);
    VdSystemDecorationsWritten(p, tunnelForward, v);
  }

  predicate Lists(args: seq<string>, p: Params, v: string) {
    && ListEncodersArgument(args, p, v) && ListDisplaysArgument(args, p, v)
    && ListAppsArgument(args, p, v) && ListCamerasArgument(args, p, v)
    && ListCameraSizesArgument(args, p, v)
  }

  lemma ListsWritten(p: Params, tunnelForward: bool, v: string)
    requires p.Valid() && TextsClean(p)
    ensures Lists(Args(p, tunnelForward), p, v)
  {
    ListEncodersWritten(p, tunnelForward, v);
    ListDisplaysWritten(p, tunnelForward, v);
    ListAppsWritten(p, tunnelForward, v);
    ListCamerasWritten(p, tunnelForward, v);
    ListCameraSizesWritten(p, tunnelForward, v);
  }

  predicate NamedValues(args: seq<string>, p: Params, v: string) {
    && ScreenOffTimeoutArgument(args, p, v) && VideoCodecArgument(args, p, v)
    && AudioCodecArgument(args, p, v) && LogLevelArgument(args, p, v)
    && SourceArguments(args, p, v) && FacingArguments(args, p, v)
    && AudioSourceArgument(args, p, v) && CaptureOrientationArgument(args, p, v)
  }

  lemma NamedValuesWritten(p: Params, tunnelForward: bool, v: string)
    requires p.Valid() && TextsClean(p)
    ensures NamedValues(Args(p, tunnelForward), p, v)
  {
    ScreenOffTimeoutWritten(p, tunnelForward, v);
    VideoCodecWritten(p, tunnelForward, v);
    AudioCodecWritten(p, tunnelForward, v);
    LogLevelWritten(p, tunnelForward, v);
    SourceWritten(p, tunnelForward, v);
    FacingWritten(p, tunnelForward, v);
    AudioSourceWritten(p, tunnelForward, v);
    CaptureOrientationWritten(p, tunnelForward, v);
  }

  /** For every key and every text v: whether `key=v` is among the arguments. */
  ghost predicate Written(args: seq<string>, p: Params, tunnelForward: bool) {
    forall v: string :: WrittenFor(args, p, tunnelForward, v)
  }

  predicate WrittenFor(args: seq<string>, p: Params, tunnelForward: bool, v: string) {
    && NumbersAndTexts(args, p, v) && Flags(args, p, v) && Lists(args, p, v) && NamedValues(args, p, v)
    && TunnelForwardArgument(args, tunnelForward, v)
  }

  /** If the texts are accepted, the vector has for each key the argument the server expects, and no other. */
  lemma EveryArgument(p: Params, tunnelForward: bool)
    requires p.Valid() && TextsClean(p)
    ensures Written(Args(p, tunnelForward), p, tunnelForward)
  {
    forall v: string ensures WrittenFor(Args(p, tunnelForward), p, tunnelForward, v) {
      NumbersAndTextsWritten(p, tunnelForward, v);
      FlagsWritten(p, tunnelForward, v);
      ListsWritten(p, tunnelForward, v);
      NamedValuesWritten(p, tunnelForward, v);
      TunnelForwardWritten(p, tunnelForward, v);
    }
  }

  /** The texts with one of these characters are refused, and no others. */
  lemma RefusedCharacters(s: string)
    ensures !Clean(s) <==>
      || ' ' in s || ';' in s || '\'' in s || '"' in s || '*' in s || '$' in s || '?' in s || '&' in s || '`' in s
      || '#' in s || '\\' in s || '|' in s || '<' in s || '>' in s || '[' in s || ']' in s || '{' in s || '}' in s
      || '(' in s || ')' in s || '!' in s || '~' in s || '\r' in s || '\n' in s
  {
    forall c: char
      ensures c in INVALID <==>
        || c == ' ' || c == ';' || c == '\'' || c == '"' || c == '*' || c == '$' || c == '?' || c == '&' || c == '`'
        || c == '#' || c == '\\' || c == '|' || c == '<' || c == '>' || c == '[' || c == ']' || c == '{' || c == '}'
        || c == '(' || c == ')' || c == '!' || c == '~' || c == '\r' || c == '\n'
    {
    }
  }
}
