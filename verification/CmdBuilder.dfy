/**
  ScServerCmdBuilder of src/server/sc_server_cmd_builder.cpp, and the argument vector that
  execute_server() of src/server/server.cpp makes with it.
 */
module CmdBuilder {
  import opened Wrappers
  import opened Numerals
  import opened ServerParams
  import opened CmdFormat
  import opened CmdArguments
  import opened Tick

  class Builder {
    var cmd: seq<string>
    ghost const base: seq<string>  // the vector as the builder got it
    ghost var pairs: seq<Pair>     // what has been added

    ghost predicate Valid()
      reads this
    {
      cmd == base + Render(pairs)
    }

    constructor (cmd: seq<string>)
      ensures Valid() && base == cmd && pairs == []
    {
      this.cmd, base, pairs := cmd, cmd, [];
    }

    method Add(k: Key, value: string)
      requires Valid()
      modifies this
      ensures Valid() && pairs == old(pairs) + [Pair(k, value)]
    {
      var pair := Pair(k, value);
      RenderAppend(pairs, pair);
      cmd := cmd + [Arg(pair)];
      pairs := pairs + [pair];
    }

    method AddBool(k: Key, value: bool, byDefault: bool)
      requires Valid()
      modifies this
      ensures Valid()
      ensures pairs == if value == byDefault then old(pairs)
                       else old(pairs) + [Pair(k, if value then "true" else "false")]
    {
      if value != byDefault {
        Add(k, if value then "true" else "false");
      }
    }

    method AddValidated(k: Key, value: string) returns (ok: bool)
      requires Valid()
      modifies this
      ensures Valid() && ok == Clean(value)
      ensures pairs == if ok then old(pairs) + [Pair(k, value)] else old(pairs)
    {
      if !Clean(value) {
        return false;
      }
      Add(k, value);
      return true;
    }

    method AddHex(k: Key, value: nat)
      requires Valid()
      modifies this
      ensures Valid() && pairs == old(pairs) + [Pair(k, Print(value, 16))]
    {
      Add(k, Print(value, 16));
    }

    // ----- the steps of build_from_params(); stage(i) is what the first i entries give

    ghost predicate At(i: nat, stage: int -> Progress)
      reads this
    {
      Valid() && stage(i) == Progress(pairs, true)
    }

    ghost predicate Ended(stage: int -> Progress)
      reads this
    {
      Valid() && stage(KEYS) == Progress(pairs, false)
    }

    method AddFlag(k: Key, value: bool, byDefault: bool,
                   ghost p: Params, ghost tunnelForward: bool, ghost stage: int -> Progress)
      requires p.Valid() && Stages(stage, p, tunnelForward) && At(Index(k), stage)
      requires FlagDefault(k) == Some(byDefault) && FlagOf(k, p, tunnelForward) == value
      modifies this
      ensures At(Index(k) + 1, stage)
    {
      AddBool(k, value, byDefault);
      Next(k, stage, p, tunnelForward);
    }

    method AddNumber(k: Key, n: nat, ghost p: Params, ghost tunnelForward: bool, ghost stage: int -> Progress)
      requires p.Valid() && Stages(stage, p, tunnelForward) && At(Index(k), stage)
      requires IsNumber(k) && NumberOf(k, p) == n
      modifies this
      ensures At(Index(k) + 1, stage)
    {
      if n != 0 {
        Add(k, Print(n, 10));
      }
      Next(k, stage, p, tunnelForward);
    }

    method AddText(k: Key, text: Option<string>,
                   ghost p: Params, ghost tunnelForward: bool, ghost stage: int -> Progress)
      returns (ok: bool)
      requires p.Valid() && Stages(stage, p, tunnelForward) && At(Index(k), stage)
      requires IsText(k) && TextOf(k, p) == text
      modifies this
      ensures if ok then At(Index(k) + 1, stage) else Ended(stage)
    {
      NextText(k, stage, p, tunnelForward);
      ok := true;
      if text.Some? {
        ok := AddValidated(k, text.value);
      }
      Stays(k, stage, p, tunnelForward);
    }

    method AddCaptureOrientation(p: Params, ghost tunnelForward: bool, ghost stage: int -> Progress)
      returns (ok: bool)
      requires p.Valid() && Stages(stage, p, tunnelForward) && At(Index(CaptureOrientation), stage)
      modifies this
      ensures if ok then At(Index(CaptureOrientation) + 1, stage) else Ended(stage)
    {
      CaptureIsAccepted(stage, p, tunnelForward);
      if p.captureLock != Unlocked || p.captureOrientation != 0 {
        var orientation := "";
        if p.captureLock == LockedInitial {
          orientation := "@";
        } else {
          if p.captureLock != Unlocked {
            orientation := orientation + "@";
          }
          orientation := orientation + OrientationName(p.captureOrientation);
        }
        assert "" + "@" == "@" && "" + OrientationName(p.captureOrientation) == OrientationName(p.captureOrientation);
        assert OrientationText(p.captureLock, p.captureOrientation) == Some(orientation);
        ok := AddValidated(CaptureOrientation, orientation);
        if !ok {
          return;
        }
      }
      return true;
    }

    method AddScreenOffTimeout(p: Params, ghost tunnelForward: bool, ghost stage: int -> Progress)
      requires p.Valid() && Stages(stage, p, tunnelForward) && At(Index(ScreenOffTimeout), stage)
      modifies this
      ensures At(Index(ScreenOffTimeout) + 1, stage)
    {
      if p.screenOffTimeout >= 0 {
        Add(ScreenOffTimeout, Print(ToMs(p.screenOffTimeout), 10));
      }
      Next(ScreenOffTimeout, stage, p, tunnelForward);
    }

    method BuildBasics(p: Params, tunnelForward: bool, ghost stage: int -> Progress)
      requires p.Valid() && Stages(stage, p, tunnelForward) && At(0, stage)
      modifies this
      ensures At(5, stage)
    {
      AddHex(Scid, p.scid);
      Next(Scid, stage, p, tunnelForward);
      Add(LogLevelKey, LogLevelName(p.logLevel));
      Next(LogLevelKey, stage, p, tunnelForward);
      AddFlag(Video, p.video, true, p, tunnelForward, stage);
      AddFlag(Audio, p.audio, true, p, tunnelForward, stage);
      AddFlag(Control, p.control, true, p, tunnelForward, stage);
    }

    method BuildCodecs(p: Params, tunnelForward: bool, ghost stage: int -> Progress)
      requires p.Valid() && Stages(stage, p, tunnelForward) && At(5, stage)
      modifies this
      ensures At(9, stage)
    {
      AddNumber(VideoBitRate, p.videoBitRate, p, tunnelForward, stage);
      AddNumber(AudioBitRate, p.audioBitRate, p, tunnelForward, stage);
      if p.videoCodec != H264 {
        Add(VideoCodec, CodecName(p.videoCodec));
      }
      Next(VideoCodec, stage, p, tunnelForward);
      if p.audioCodec != Opus {
        Add(AudioCodec, CodecName(p.audioCodec));
      }
      Next(AudioCodec, stage, p, tunnelForward);
    }

    method BuildSources(p: Params, tunnelForward: bool, ghost stage: int -> Progress)
      requires p.Valid() && Stages(stage, p, tunnelForward) && At(9, stage)
      modifies this
      ensures At(12, stage)
    {
      if p.videoSource != Display {
        Add(VideoSourceKey, "camera");
      }
      Next(VideoSourceKey, stage, p, tunnelForward);
      if p.audioSource != Output && p.audio {
        Add(AudioSourceKey, AudioSourceName(p.audioSource));
      }
      Next(AudioSourceKey, stage, p, tunnelForward);
      if p.audioDup {
        Add(AudioDup, "1");
      }
      Next(AudioDup, stage, p, tunnelForward);
    }

    method BuildCapture(p: Params, tunnelForward: bool, ghost stage: int -> Progress) returns (ok: bool)
      requires p.Valid() && Stages(stage, p, tunnelForward) && At(12, stage)
      modifies this
      ensures if ok then At(16, stage) else Ended(stage)
    {
      ok := AddText(MaxFps, p.maxFps, p, tunnelForward, stage);
      if !ok {
        return;
      }
      ok := AddText(Angle, p.angle, p, tunnelForward, stage);
      if !ok {
        return;
      }
      ok := AddCaptureOrientation(p, tunnelForward, stage);
      if !ok {
        return;
      }
      ok := AddText(Crop, p.crop, p, tunnelForward, stage);
      if !ok {
        return;
      }
      return true;
    }

    method BuildDisplay(p: Params, tunnelForward: bool, ghost stage: int -> Progress)
      requires p.Valid() && Stages(stage, p, tunnelForward) && At(16, stage)
      modifies this
      ensures At(18, stage)
    {
      AddNumber(MaxSize, p.maxSize, p, tunnelForward, stage);
      AddNumber(DisplayId, p.displayId, p, tunnelForward, stage);
    }

    method BuildCameraChoice(p: Params, tunnelForward: bool, ghost stage: int -> Progress) returns (ok: bool)
      requires p.Valid() && Stages(stage, p, tunnelForward) && At(18, stage)
      modifies this
      ensures if ok then At(21, stage) else Ended(stage)
    {
      ok := AddText(CameraId, p.cameraId, p, tunnelForward, stage);
      if !ok {
        return;
      }
      ok := AddText(CameraSize, p.cameraSize, p, tunnelForward, stage);
      if !ok {
        return;
      }
      if p.cameraFacing != Any {
        Add(CameraFacingKey, FacingName(p.cameraFacing));
      }
      Next(CameraFacingKey, stage, p, tunnelForward);
      return true;
    }

    method BuildCamera(p: Params, tunnelForward: bool, ghost stage: int -> Progress) returns (ok: bool)
      requires p.Valid() && Stages(stage, p, tunnelForward) && At(21, stage)
      modifies this
      ensures if ok then At(24, stage) else Ended(stage)
    {
      ok := AddText(CameraAr, p.cameraAr, p, tunnelForward, stage);
      if !ok {
        return;
      }
      AddNumber(CameraFps, p.cameraFps, p, tunnelForward, stage);
      AddFlag(CameraHighSpeed, p.cameraHighSpeed, false, p, tunnelForward, stage);
      return true;
    }

    method BuildScreen(p: Params, tunnelForward: bool, ghost stage: int -> Progress)
      requires p.Valid() && Stages(stage, p, tunnelForward) && At(24, stage)
      modifies this
      ensures At(27, stage)
    {
      AddFlag(ShowTouches, p.showTouches, false, p, tunnelForward, stage);
      AddFlag(StayAwake, p.stayAwake, false, p, tunnelForward, stage);
      AddScreenOffTimeout(p, tunnelForward, stage);
    }

    method BuildCodecOptions(p: Params, tunnelForward: bool, ghost stage: int -> Progress) returns (ok: bool)
      requires p.Valid() && Stages(stage, p, tunnelForward) && At(27, stage)
      modifies this
      ensures if ok then At(29, stage) else Ended(stage)
    {
      ok := AddText(VideoCodecOptions, p.videoCodecOptions, p, tunnelForward, stage);
      if !ok {
        return;
      }
      ok := AddText(AudioCodecOptions, p.audioCodecOptions, p, tunnelForward, stage);
      if !ok {
        return;
      }
      return true;
    }

    method BuildEncoders(p: Params, tunnelForward: bool, ghost stage: int -> Progress) returns (ok: bool)
      requires p.Valid() && Stages(stage, p, tunnelForward) && At(29, stage)
      modifies this
      ensures if ok then At(31, stage) else Ended(stage)
    {
      ok := AddText(VideoEncoder, p.videoEncoder, p, tunnelForward, stage);
      if !ok {
        return;
      }
      ok := AddText(AudioEncoder, p.audioEncoder, p, tunnelForward, stage);
      if !ok {
        return;
      }
      return true;
    }

    method BuildBehaviour(p: Params, tunnelForward: bool, ghost stage: int -> Progress)
      requires p.Valid() && Stages(stage, p, tunnelForward) && At(31, stage)
      modifies this
      ensures At(34, stage)
    {
      AddFlag(ClipboardAutosync, p.clipboardAutosync, true, p, tunnelForward, stage);
      AddFlag(DownsizeOnError, p.downsizeOnError, true, p, tunnelForward, stage);
      AddFlag(Cleanup, p.cleanup, true, p, tunnelForward, stage);
    }

    method BuildPower(p: Params, tunnelForward: bool, ghost stage: int -> Progress)
      requires p.Valid() && Stages(stage, p, tunnelForward) && At(34, stage)
      modifies this
      ensures At(36, stage)
    {
      AddFlag(PowerOn, p.powerOn, true, p, tunnelForward, stage);
      AddFlag(PowerOffOnClose, p.powerOffOnClose, true, p, tunnelForward, stage);
    }

    method BuildNewDisplay(p: Params, tunnelForward: bool, ghost stage: int -> Progress) returns (ok: bool)
      requires p.Valid() && Stages(stage, p, tunnelForward) && At(36, stage)
      modifies this
      ensures if ok then At(38, stage) else Ended(stage)
    {
      ok := AddText(NewDisplay, p.newDisplay, p, tunnelForward, stage);
      if !ok {
        return;
      }
      if p.imePolicy != Undefined {
        Add(ImePolicyKey, ImePolicyName(p.imePolicy));
      }
      Next(ImePolicyKey, stage, p, tunnelForward);
      return true;
    }

    method BuildVirtualDisplay(p: Params, tunnelForward: bool, ghost stage: int -> Progress)
      requires p.Valid() && Stages(stage, p, tunnelForward) && At(38, stage)
      modifies this
      ensures At(40, stage)
    {
      AddFlag(VdDestroyContent, p.vdDestroyContent, true, p, tunnelForward, stage);
      AddFlag(VdSystemDecorations, p.vdSystemDecorations, true, p, tunnelForward, stage);
    }

    method BuildTunnelForward(p: Params, tunnelForward: bool, ghost stage: int -> Progress)
      requires p.Valid() && Stages(stage, p, tunnelForward) && At(40, stage)
      modifies this
      ensures At(41, stage)
    {
      AddFlag(TunnelForward, tunnelForward, false, p, tunnelForward, stage);
    }

    method BuildLists(p: Params, tunnelForward: bool, ghost stage: int -> Progress)
      requires p.Valid() && Stages(stage, p, tunnelForward) && At(41, stage)
      modifies this
      ensures At(43, stage)
    {
      AddFlag(ListEncoders, p.list & LIST_ENCODERS != 0, false, p, tunnelForward, stage);
      AddFlag(ListDisplays, p.list & LIST_DISPLAYS != 0, false, p, tunnelForward, stage);
    }

    method BuildCameraLists(p: Params, tunnelForward: bool, ghost stage: int -> Progress)
      requires p.Valid() && Stages(stage, p, tunnelForward) && At(43, stage)
      modifies this
      ensures At(45, stage)
    {
      AddFlag(ListCameras, p.list & LIST_CAMERAS != 0, false, p, tunnelForward, stage);
      AddFlag(ListCameraSizes, p.list & LIST_CAMERA_SIZES != 0, false, p, tunnelForward, stage);
    }

    method BuildAppList(p: Params, tunnelForward: bool, ghost stage: int -> Progress)
      requires p.Valid() && Stages(stage, p, tunnelForward) && At(45, stage)
      modifies this
      ensures At(46, stage)
    {
      AddFlag(ListApps, p.list & LIST_APPS != 0, false, p, tunnelForward, stage);
    }

    method BuildMedia(p: Params, tunnelForward: bool, ghost stage: int -> Progress) returns (ok: bool)
      requires p.Valid() && Stages(stage, p, tunnelForward) && At(0, stage)
      modifies this
      ensures if ok then At(16, stage) else Ended(stage)
    {
      BuildBasics(p, tunnelForward, stage);
      BuildCodecs(p, tunnelForward, stage);
      BuildSources(p, tunnelForward, stage);
      ok := BuildCapture(p, tunnelForward, stage);
    }

    method BuildDevice(p: Params, tunnelForward: bool, ghost stage: int -> Progress) returns (ok: bool)
      requires p.Valid() && Stages(stage, p, tunnelForward) && At(16, stage)
      modifies this
      ensures if ok then At(31, stage) else Ended(stage)
    {
      BuildDisplay(p, tunnelForward, stage);
      ok := BuildCameraChoice(p, tunnelForward, stage);
      if !ok {
        return;
      }
      ok := BuildCamera(p, tunnelForward, stage);
      if !ok {
        return;
      }
      BuildScreen(p, tunnelForward, stage);
      ok := BuildCodecOptions(p, tunnelForward, stage);
      if !ok {
        return;
      }
      ok := BuildEncoders(p, tunnelForward, stage);
    }

    method BuildSession(p: Params, tunnelForward: bool, ghost stage: int -> Progress) returns (ok: bool)
      requires p.Valid() && Stages(stage, p, tunnelForward) && At(31, stage)
      modifies this
      ensures if ok then At(40, stage) else Ended(stage)
    {
      BuildBehaviour(p, tunnelForward, stage);
      BuildPower(p, tunnelForward, stage);
      ok := BuildNewDisplay(p, tunnelForward, stage);
      if !ok {
        return;
      }
      BuildVirtualDisplay(p, tunnelForward, stage);
      ok := true;
    }

    method BuildRest(p: Params, tunnelForward: bool, ghost stage: int -> Progress)
      requires p.Valid() && Stages(stage, p, tunnelForward) && At(40, stage)
      modifies this
      ensures At(46, stage)
    {
      BuildTunnelForward(p, tunnelForward, stage);
      BuildLists(p, tunnelForward, stage);
      BuildCameraLists(p, tunnelForward, stage);
      BuildAppList(p, tunnelForward, stage);
    }

    /** build_from_params(), section by section. */
    method BuildFromParams(p: Params, tunnelForward: bool) returns (ok: bool)
      requires p.Valid() && Valid() && pairs == []
      modifies this
      ensures Valid() && Progress(pairs, ok) == Printed(p, tunnelForward)
      ensures ok <==> TextsClean(p)
      ensures ok ==> Decode(cmd[|base|..]) == Decoded(Normalize(p), tunnelForward)
      ensures ok ==> Written(cmd[|base|..], p, tunnelForward)
    {
      ghost var n, entries := KEYS, Entries(p, tunnelForward);
      ghost var stage := StageOf(entries);
      StageOfStages(p, tunnelForward);
      PrintedIffTextsClean(p, tunnelForward);
      assert stage(n) == Printed(p, tunnelForward);
      ok := BuildMedia(p, tunnelForward, stage);
      if !ok {
        return;
      }
      ok := BuildDevice(p, tunnelForward, stage);
      if !ok {
        return;
      }
      ok := BuildSession(p, tunnelForward, stage);
      if ok {
        BuildRest(p, tunnelForward, stage);
        DecodePrinted(p, tunnelForward);
        EveryArgument(p, tunnelForward);
        assert cmd[|base|..] == Render(pairs);
      }
    }
  }

  /** stage(i) is what the first i entries make of the parameters. */
  ghost predicate Stages(stage: int -> Progress, p: Params, tunnelForward: bool)
    requires p.Valid()
  {
    forall k: Key {:trigger EntryOf(k, p, tunnelForward)} ::
      stage(Index(k) + 1) == Put(stage(Index(k)), EntryOf(k, p, tunnelForward))
  }

  function With(pairs: seq<Pair>, k: Key, value: Option<string>): seq<Pair> {
    if value.None? then pairs else pairs + [Pair(k, value.value)]
  }

  lemma Next(k: Key, stage: int -> Progress, p: Params, tunnelForward: bool)
    requires p.Valid() && Stages(stage, p, tunnelForward) && !Validated(k) && stage(Index(k)).ok
    ensures stage(Index(k) + 1) == Progress(With(stage(Index(k)).pairs, k, Value(k, p, tunnelForward)), true)
  {
    assert stage(Index(k) + 1) == Put(stage(Index(k)), EntryOf(k, p, tunnelForward));
  }

  lemma NextText(k: Key, stage: int -> Progress, p: Params, tunnelForward: bool)
    requires p.Valid() && Stages(stage, p, tunnelForward) && IsText(k) && stage(Index(k)).ok
    ensures var text, s := TextOf(k, p), stage(Index(k));
            stage(Index(k) + 1) ==
            if text.None? then s
            else if Clean(text.value) then Progress(s.pairs + [Pair(k, text.value)], true)
            else Progress(s.pairs, false)
  {
    assert stage(Index(k) + 1) == Put(stage(Index(k)), EntryOf(k, p, tunnelForward));
  }

  lemma CaptureIsAccepted(stage: int -> Progress, p: Params, tunnelForward: bool)
    requires p.Valid() && Stages(stage, p, tunnelForward) && stage(Index(CaptureOrientation)).ok
    ensures var text, s := OrientationText(p.captureLock, p.captureOrientation), stage(Index(CaptureOrientation));
            && (text.Some? ==> Clean(text.value))
            && stage(Index(CaptureOrientation) + 1) == Progress(With(s.pairs, CaptureOrientation, text), true)
  {
    var k := CaptureOrientation;
    AcceptedUnlessTextUnclean(k, p, tunnelForward);
    assert stage(Index(k) + 1) == Put(stage(Index(k)), EntryOf(k, p, tunnelForward));
  }

  /** Nothing is added after a value that is not accepted. */
  lemma Stays(k: Key, stage: int -> Progress, p: Params, tunnelForward: bool)
    requires p.Valid() && Stages(stage, p, tunnelForward)
    ensures !stage(Index(k) + 1).ok ==> stage(KEYS) == stage(Index(k) + 1)
  {
    StaysFrom(Index(k) + 1, stage, p, tunnelForward);
  }

  lemma {:induction false} StaysFrom(i: nat, stage: int -> Progress, p: Params, tunnelForward: bool)
    requires p.Valid() && Stages(stage, p, tunnelForward) && i <= KEYS
    ensures !stage(i).ok ==> stage(KEYS) == stage(i)
    decreases KEYS - i
  {
    if i < KEYS {
      StaysFrom(i + 1, stage, p, tunnelForward);
      var k := KeyAt(i);
      IndexOfKeyAt(i);
      assert stage(Index(k) + 1) == Put(stage(Index(k)), EntryOf(k, p, tunnelForward));
    }
  }

  ghost function StageOf(entries: seq<Entry>): int -> Progress {
    (i: int) => if 0 <= i <= |entries| then Built(i, entries) else Progress([], false)
  }

  lemma StageOfStages(p: Params, tunnelForward: bool)
    requires p.Valid()
    ensures Stages(StageOf(Entries(p, tunnelForward)), p, tunnelForward)
  {
    var entries := Entries(p, tunnelForward);
    var stage := StageOf(entries);
    forall k: Key
      ensures stage(Index(k) + 1) == Put(stage(Index(k)), EntryOf(k, p, tunnelForward))
    {
      KeyAtIndex(k);
      assert entries[Index(k)] == EntryOf(k, p, tunnelForward);
    }
  }
}
