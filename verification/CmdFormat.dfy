/**
  The key=value arguments of src/server/sc_server_cmd_builder.cpp: what is printed for which
  parameters, and a reader for them. A parameter at its default is not printed; the reader puts the
  builder's own default in its place.
 */
module CmdFormat {
  import opened Wrappers
  import opened Numerals
  import opened ServerParams
  import opened Orientation
  import opened Tick

  const KEYS: nat := 46

  datatype Key =
    Scid | LogLevelKey | Video | Audio | Control | VideoBitRate | AudioBitRate | VideoCodec | AudioCodec
    | VideoSourceKey | AudioSourceKey | AudioDup | MaxFps | Angle | CaptureOrientation | Crop | MaxSize
    | DisplayId | CameraId | CameraSize | CameraFacingKey | CameraAr | CameraFps | CameraHighSpeed
    | ShowTouches | StayAwake | ScreenOffTimeout | VideoCodecOptions | AudioCodecOptions | VideoEncoder
    | AudioEncoder | ClipboardAutosync | DownsizeOnError | Cleanup | PowerOn | PowerOffOnClose | NewDisplay
    | ImePolicyKey | VdDestroyContent | VdSystemDecorations | TunnelForward | ListEncoders | ListDisplays
    | ListCameras | ListCameraSizes | ListApps

  function Name(k: Key): string {
    match k
    case Scid => "scid"
    case LogLevelKey => "log_level"
    case Video => "video"
    case Audio => "audio"
    case Control => "control"
    case VideoBitRate => "video_bit_rate"
    case AudioBitRate => "audio_bit_rate"
    case VideoCodec => "video_codec"
    case AudioCodec => "audio_codec"
    case VideoSourceKey => "video_source"
    case AudioSourceKey => "audio_source"
    case AudioDup => "audio_dup"
    case MaxFps => "max_fps"
    case Angle => "angle"
    case CaptureOrientation => "capture_orientation"
    case Crop => "crop"
    case MaxSize => "max_size"
    case DisplayId => "display_id"
    case CameraId => "camera_id"
    case CameraSize => "camera_size"
    case CameraFacingKey => "camera_facing"
    case CameraAr => "camera_ar"
    case CameraFps => "camera_fps"
    case CameraHighSpeed => "camera_high_speed"
    case ShowTouches => "show_touches"
    case StayAwake => "stay_awake"
    case ScreenOffTimeout => "screen_off_timeout"
    case VideoCodecOptions => "video_codec_options"
    case AudioCodecOptions => "audio_codec_options"
    case VideoEncoder => "video_encoder"
    case AudioEncoder => "audio_encoder"
    case ClipboardAutosync => "clipboard_autosync"
    case DownsizeOnError => "downsize_on_error"
    case Cleanup => "cleanup"
    case PowerOn => "power_on"
    case PowerOffOnClose => "power_off_on_close"
    case NewDisplay => "new_display"
    case ImePolicyKey => "display_ime_policy"
    case VdDestroyContent => "vd_destroy_content"
    case VdSystemDecorations => "vd_system_decorations"
    case TunnelForward => "tunnel_forward"
    case ListEncoders => "list_encoders"
    case ListDisplays => "list_displays"
    case ListCameras => "list_cameras"
    case ListCameraSizes => "list_camera_sizes"
    case ListApps => "list_apps"
  }

  /** The order in which the parameters are written. */
  function Index(k: Key): (r: nat)
    ensures r < KEYS
  {
    match k
    case Scid => 0 case LogLevelKey => 1 case Video => 2 case Audio => 3 case Control => 4
    case VideoBitRate => 5 case AudioBitRate => 6 case VideoCodec => 7 case AudioCodec => 8
    case VideoSourceKey => 9 case AudioSourceKey => 10 case AudioDup => 11 case MaxFps => 12 case Angle => 13
    case CaptureOrientation => 14 case Crop => 15 case MaxSize => 16 case DisplayId => 17 case CameraId => 18
    case CameraSize => 19 case CameraFacingKey => 20 case CameraAr => 21 case CameraFps => 22
    case CameraHighSpeed => 23 case ShowTouches => 24 case StayAwake => 25 case ScreenOffTimeout => 26
    case VideoCodecOptions => 27 case AudioCodecOptions => 28 case VideoEncoder => 29 case AudioEncoder => 30
    case ClipboardAutosync => 31 case DownsizeOnError => 32 case Cleanup => 33 case PowerOn => 34
    case PowerOffOnClose => 35 case NewDisplay => 36 case ImePolicyKey => 37 case VdDestroyContent => 38
    case VdSystemDecorations => 39 case TunnelForward => 40 case ListEncoders => 41 case ListDisplays => 42
    case ListCameras => 43 case ListCameraSizes => 44 case ListApps => 45
  }

  function KeyAt(i: nat): Key
    requires i < KEYS
  {
    if i == 0 then Scid else if i == 1 then LogLevelKey else if i == 2 then Video else
    if i == 3 then Audio else if i == 4 then Control else if i == 5 then VideoBitRate else
    if i == 6 then AudioBitRate else if i == 7 then VideoCodec else if i == 8 then AudioCodec else
    if i == 9 then VideoSourceKey else if i == 10 then AudioSourceKey else if i == 11 then AudioDup else
    if i == 12 then MaxFps else if i == 13 then Angle else if i == 14 then CaptureOrientation else
    if i == 15 then Crop else if i == 16 then MaxSize else if i == 17 then DisplayId else
    if i == 18 then CameraId else if i == 19 then CameraSize else if i == 20 then CameraFacingKey else
    if i == 21 then CameraAr else if i == 22 then CameraFps else if i == 23 then CameraHighSpeed else
    if i == 24 then ShowTouches else if i == 25 then StayAwake else if i == 26 then ScreenOffTimeout else
    if i == 27 then VideoCodecOptions else if i == 28 then AudioCodecOptions else
    if i == 29 then VideoEncoder else if i == 30 then AudioEncoder else if i == 31 then ClipboardAutosync else
    if i == 32 then DownsizeOnError else if i == 33 then Cleanup else if i == 34 then PowerOn else
    if i == 35 then PowerOffOnClose else if i == 36 then NewDisplay else if i == 37 then ImePolicyKey else
    if i == 38 then VdDestroyContent else if i == 39 then VdSystemDecorations else
    if i == 40 then TunnelForward else if i == 41 then ListEncoders else if i == 42 then ListDisplays else
    if i == 43 then ListCameras else if i == 44 then ListCameraSizes else ListApps
  }

  /** The key of a name, told by its length and one of its letters. */
  function KeyNamed(name: string): Key {
    match |name|
    case 4 => if name[0] == 's' then Scid else Crop
    case 5 => if name[1] == 'i' then Video else if name[1] == 'u' then Audio else Angle
    case 7 => if name[1] == 'o' then Control else if name[1] == 'a' then MaxFps else Cleanup
    case 8 => if name[0] == 'm' then MaxSize else PowerOn
    case 9 =>
      if name[7] == 'e' then LogLevelKey else if name[7] == 'u' then AudioDup else
      if name[7] == 'i' then CameraId else if name[7] == 'a' then CameraAr else ListApps
    case 10 => if name[0] == 'd' then DisplayId else if name[0] == 'c' then CameraFps else StayAwake
    case 11 =>
      if name[0] == 'v' then VideoCodec else if name[0] == 'a' then AudioCodec else
      if name[0] == 'c' then CameraSize else NewDisplay
    case 12 =>
      if name[0] == 'v' then VideoSourceKey else if name[0] == 'a' then AudioSourceKey else
      if name[0] == 's' then ShowTouches else ListCameras
    case 13 =>
      if name[0] == 'c' then CameraFacingKey else if name[0] == 'v' then VideoEncoder else
      if name[0] == 'a' then AudioEncoder else if name[5] == 'e' then ListEncoders else ListDisplays
    case 14 =>
      if name[0] == 'v' then VideoBitRate else if name[0] == 'a' then AudioBitRate else TunnelForward
    case 17 =>
      if name[0] == 'c' then CameraHighSpeed else if name[0] == 'd' then DownsizeOnError else
      ListCameraSizes
    case 18 =>
      if name[0] == 's' then ScreenOffTimeout else if name[0] == 'c' then ClipboardAutosync else
      if name[0] == 'p' then PowerOffOnClose else if name[0] == 'd' then ImePolicyKey else VdDestroyContent
    case 19 =>
      if name[0] == 'c' then CaptureOrientation else if name[0] == 'v' then VideoCodecOptions else
      AudioCodecOptions
    case 21 => VdSystemDecorations
    case _ => Scid
  }

  // ----- what is printed

  const INVALID := " ;'\"*$?&`#\\|<>[]{}()!~\r\n"

  /** validate_string() */
  predicate Clean(s: string) {
    forall i :: 0 <= i < |s| ==> s[i] !in INVALID
  }

  /** Letters, digits, '_', '-' and '@'. */
  predicate Plain(s: string) {
    forall i :: 0 <= i < |s| ==> PlainChar(s[i])
  }

  predicate PlainChar(c: char) {
    'a' <= c <= 'z' || '0' <= c <= '9' || c == '_' || c == '-' || c == '@'
  }

  lemma PlainIsClean(s: string)
    requires Plain(s)
    ensures Clean(s) && '=' !in s
  {
    forall c: char | PlainChar(c) ensures c !in INVALID {
      PlainCharIsValid(c);
    }
  }

  lemma PlainCharIsValid(c: char)
    requires PlainChar(c)
    ensures c !in INVALID
  {
  }

  function Flag(value: bool, byDefault: bool): Option<string> {
    if value == byDefault then None else Some(if value then "true" else "false")
  }

  function Number(n: nat): Option<string> {
    if n == 0 then None else Some(Print(n, 10))
  }

  function TimeoutText(timeout: int): Option<string> {
    if timeout >= 0 then Some(Print(ToMs(timeout), 10)) else None
  }

  function OrientationText(lock: OrientationLock, o: Orientation): Option<string> {
    if lock == Unlocked && o == 0 then None
    else if lock == LockedInitial then Some("@")
    else Some((if lock != Unlocked then "@" else "") + OrientationName(o))
  }

  /** The flags, with the default that is not printed. */
  function FlagDefault(k: Key): Option<bool> {
    match k
    case Video | Audio | Control | ClipboardAutosync | DownsizeOnError | Cleanup | PowerOn | PowerOffOnClose
         | VdDestroyContent | VdSystemDecorations => Some(true)
    case CameraHighSpeed | ShowTouches | StayAwake | TunnelForward | ListEncoders | ListDisplays | ListCameras
         | ListCameraSizes | ListApps => Some(false)
    case _ => None
  }

  function FlagOf(k: Key, p: Params, tunnelForward: bool): bool {
    match k
    case Video => p.video
    case Audio => p.audio
    case Control => p.control
    case CameraHighSpeed => p.cameraHighSpeed
    case ShowTouches => p.showTouches
    case StayAwake => p.stayAwake
    case ClipboardAutosync => p.clipboardAutosync
    case DownsizeOnError => p.downsizeOnError
    case Cleanup => p.cleanup
    case PowerOn => p.powerOn
    case PowerOffOnClose => p.powerOffOnClose
    case VdDestroyContent => p.vdDestroyContent
    case VdSystemDecorations => p.vdSystemDecorations
    case TunnelForward => tunnelForward
    case ListEncoders => p.list & LIST_ENCODERS != 0
    case ListDisplays => p.list & LIST_DISPLAYS != 0
    case ListCameras => p.list & LIST_CAMERAS != 0
    case ListCameraSizes => p.list & LIST_CAMERA_SIZES != 0
    case ListApps => p.list & LIST_APPS != 0
    case _ => false
  }

  /** The numbers, printed unless they are zero. */
  predicate IsNumber(k: Key) {
    match k
    case VideoBitRate | AudioBitRate | MaxSize | DisplayId | CameraFps => true
    case _ => false
  }

  function NumberOf(k: Key, p: Params): nat {
    match k
    case VideoBitRate => p.videoBitRate
    case AudioBitRate => p.audioBitRate
    case MaxSize => p.maxSize
    case DisplayId => p.displayId
    case CameraFps => p.cameraFps
    case _ => 0
  }

  /** The texts of the caller, printed if present. */
  predicate IsText(k: Key) {
    match k
    case MaxFps | Angle | Crop | CameraId | CameraSize | CameraAr | VideoCodecOptions | AudioCodecOptions
         | VideoEncoder | AudioEncoder | NewDisplay => true
    case _ => false
  }

  function TextOf(k: Key, p: Params): Option<string> {
    match k
    case MaxFps => p.maxFps
    case Angle => p.angle
    case Crop => p.crop
    case CameraId => p.cameraId
    case CameraSize => p.cameraSize
    case CameraAr => p.cameraAr
    case VideoCodecOptions => p.videoCodecOptions
    case AudioCodecOptions => p.audioCodecOptions
    case VideoEncoder => p.videoEncoder
    case AudioEncoder => p.audioEncoder
    case NewDisplay => p.newDisplay
    case _ => None
  }

  function Value(k: Key, p: Params, tunnelForward: bool): Option<string>
    requires p.Valid()
  {
    match k
    case Scid => Some(Print(p.scid, 16))
    case LogLevelKey => Some(LogLevelName(p.logLevel))
    case VideoCodec => if p.videoCodec != H264 then Some(CodecName(p.videoCodec)) else None
    case AudioCodec => if p.audioCodec != Opus then Some(CodecName(p.audioCodec)) else None
    case VideoSourceKey => if p.videoSource != Display then Some("camera") else None
    case AudioSourceKey => if p.audioSource != Output && p.audio then Some(AudioSourceName(p.audioSource)) else None
    case AudioDup => if p.audioDup then Some("1") else None
    case CaptureOrientation => OrientationText(p.captureLock, p.captureOrientation)
    case CameraFacingKey => if p.cameraFacing != Any then Some(FacingName(p.cameraFacing)) else None
    case ScreenOffTimeout => TimeoutText(p.screenOffTimeout)
    case ImePolicyKey => if p.imePolicy != Undefined then Some(ImePolicyName(p.imePolicy)) else None
    case _ =>
      if FlagDefault(k).Some? then Flag(FlagOf(k, p, tunnelForward), FlagDefault(k).value)
      else if IsNumber(k) then Number(NumberOf(k, p))
      else TextOf(k, p)
  }

  datatype Pair = Pair(key: Key, value: string)

  function Arg(pair: Pair): string {
    Name(pair.key) + "=" + pair.value
  }

  function Render(pairs: seq<Pair>): seq<string> {
    seq(|pairs|, i requires 0 <= i < |pairs| => Arg(pairs[i]))
  }

  lemma RenderAppend(pairs: seq<Pair>, pair: Pair)
    ensures Render(pairs + [pair]) == Render(pairs) + [Arg(pair)]
  {
  }

  lemma RenderLast(pairs: seq<Pair>)
    requires pairs != []
    ensures var i := |pairs| - 1; Render(pairs) == Render(pairs[..i]) + [Arg(pairs[i])]
  {
    assert pairs == pairs[..|pairs| - 1] + [pairs[|pairs| - 1]];
    RenderAppend(pairs[..|pairs| - 1], pairs[|pairs| - 1]);
  }

  /** What is printed so far, and whether every value was accepted. */
  datatype Progress = Progress(pairs: seq<Pair>, ok: bool)

  /** Whether the value goes through add_validated(). */
  predicate Validated(k: Key) {
    IsText(k) || k == CaptureOrientation
  }

  /** A parameter: its printed value unless it is not printed, and whether that is accepted. */
  datatype Entry = Entry(key: Key, value: Option<string>, accepted: bool)

  function EntryOf(k: Key, p: Params, tunnelForward: bool): Entry
    requires p.Valid()
  {
    var value := Value(k, p, tunnelForward);
    Entry(k, value, Validated(k) && value.Some? ==> Clean(value.value))
  }

  /** One parameter: the first value that is not accepted ends the printing. */
  function Put(s: Progress, e: Entry): Progress {
    if !s.ok || e.value.None? then s
    else if !e.accepted then Progress(s.pairs, false)
    else Progress(s.pairs + [Pair(e.key, e.value.value)], true)
  }

  /** After the first n entries. */
  function Built(n: nat, entries: seq<Entry>): Progress
    requires n <= |entries|
  {
    if n == 0 then Progress([], true) else Put(Built(n - 1, entries), entries[n - 1])
  }

  /** All parameters, in the order in which they are written. */
  function Entries(p: Params, tunnelForward: bool): (r: seq<Entry>)
    requires p.Valid()
    ensures |r| == KEYS
  {
    seq(KEYS, i requires 0 <= i < KEYS => EntryOf(KeyAt(i), p, tunnelForward))
  }

  /** All parameters. */
  function Printed(p: Params, tunnelForward: bool): Progress
    requires p.Valid()
  {
    Built(KEYS, Entries(p, tunnelForward))
  }

  // ----- names and order of the keys

  lemma IndexOfKeyAt(i: nat)
    requires i < KEYS
    ensures Index(KeyAt(i)) == i
  {
  }

  lemma OnFlagKeyAtIndex(k: Key)
    requires FlagDefault(k) == Some(true)
    ensures KeyAt(Index(k)) == k
  {
  }

  lemma OffFlagKeyAtIndex(k: Key)
    requires FlagDefault(k) == Some(false)
    ensures KeyAt(Index(k)) == k
  {
  }

  lemma TextKeyAtIndex(k: Key)
    requires IsText(k)
    ensures KeyAt(Index(k)) == k
  {
  }

  lemma NumberKeyAtIndex(k: Key)
    requires IsNumber(k)
    ensures KeyAt(Index(k)) == k
  {
  }

  lemma NamedKeyAtIndex(k: Key)
    requires FlagDefault(k) == None && !IsText(k) && !IsNumber(k)
    ensures KeyAt(Index(k)) == k
  {
  }

  lemma KeyAtIndex(k: Key)
    ensures KeyAt(Index(k)) == k
  {
    if FlagDefault(k) == Some(true) {
      OnFlagKeyAtIndex(k);
    } else if FlagDefault(k) == Some(false) {
      OffFlagKeyAtIndex(k);
    } else if IsText(k) {
      TextKeyAtIndex(k);
    } else if IsNumber(k) {
      NumberKeyAtIndex(k);
    } else {
      NamedKeyAtIndex(k);
    }
  }

  lemma OnFlagNameTellsKey(k: Key)
    requires FlagDefault(k) == Some(true)
    ensures KeyNamed(Name(k)) == k
  {
  }

  lemma OffFlagNameTellsKey(k: Key)
    requires FlagDefault(k) == Some(false)
    ensures KeyNamed(Name(k)) == k
  {
  }

  lemma TextNameTellsKey(k: Key)
    requires IsText(k)
    ensures KeyNamed(Name(k)) == k
  {
  }

  lemma NumberNameTellsKey(k: Key)
    requires IsNumber(k)
    ensures KeyNamed(Name(k)) == k
  {
  }

  lemma NamedNameTellsKey(k: Key)
    requires FlagDefault(k) == None && !IsText(k) && !IsNumber(k)
    ensures KeyNamed(Name(k)) == k
  {
  }

  lemma NameTellsKey(k: Key)
    ensures KeyNamed(Name(k)) == k
  {
    if FlagDefault(k) == Some(true) {
      OnFlagNameTellsKey(k);
    } else if FlagDefault(k) == Some(false) {
      OffFlagNameTellsKey(k);
    } else if IsText(k) {
      TextNameTellsKey(k);
    } else if IsNumber(k) {
      NumberNameTellsKey(k);
    } else {
      NamedNameTellsKey(k);
    }
  }

  lemma NamesDistinct(a: Key, b: Key)
    requires Name(a) == Name(b)
    ensures a == b
  {
    NameTellsKey(a);
    NameTellsKey(b);
  }

  lemma ShortOnFlagNameIsPlain(k: Key)
    requires FlagDefault(k) == Some(true) && |Name(k)| < 12
    ensures Plain(Name(k))
  {
  }

  lemma LongOnFlagNameIsPlain(k: Key)
    requires FlagDefault(k) == Some(true) && |Name(k)| >= 12
    ensures Plain(Name(k))
  {
  }

  lemma OnFlagNameIsPlain(k: Key)
    requires FlagDefault(k) == Some(true)
    ensures Plain(Name(k))
  {
    if |Name(k)| < 12 {
      ShortOnFlagNameIsPlain(k);
    } else {
      LongOnFlagNameIsPlain(k);
    }
  }

  lemma OffFlagNameIsPlain(k: Key)
    requires FlagDefault(k) == Some(false)
    ensures Plain(Name(k))
  {
  }

  lemma TextNameIsPlain(k: Key)
    requires IsText(k)
    ensures Plain(Name(k))
  {
  }

  lemma NumberNameIsPlain(k: Key)
    requires IsNumber(k)
    ensures Plain(Name(k))
  {
  }

  lemma ShortNamedNameIsPlain(k: Key)
    requires FlagDefault(k) == None && !IsText(k) && !IsNumber(k) && |Name(k)| < 12
    ensures Plain(Name(k))
  {
  }

  lemma LongNamedNameIsPlain(k: Key)
    requires FlagDefault(k) == None && !IsText(k) && !IsNumber(k) && |Name(k)| >= 12
    ensures Plain(Name(k))
  {
  }

  lemma NamedNameIsPlain(k: Key)
    requires FlagDefault(k) == None && !IsText(k) && !IsNumber(k)
    ensures Plain(Name(k))
  {
    if |Name(k)| < 12 {
      ShortNamedNameIsPlain(k);
    } else {
      LongNamedNameIsPlain(k);
    }
  }

  lemma NameIsPlain(k: Key)
    ensures Plain(Name(k))
  {
    if FlagDefault(k) == Some(true) {
      OnFlagNameIsPlain(k);
    } else if FlagDefault(k) == Some(false) {
      OffFlagNameIsPlain(k);
    } else if IsText(k) {
      TextNameIsPlain(k);
    } else if IsNumber(k) {
      NumberNameIsPlain(k);
    } else {
      NamedNameIsPlain(k);
    }
  }

  // ----- reading back

  /** The name before the first '=' and the value after it. */
  function Cut(arg: string): Option<(string, string)> {
    if arg == "" then None
    else if arg[0] == '=' then Some(("", arg[1..]))
    else
      match Cut(arg[1..])
      case None => None
      case Some(pair) => Some(([arg[0]] + pair.0, pair.1))
  }

  lemma {:induction false} CutAtFirstEquals(name: string, value: string)
    requires '=' !in name
    ensures Cut(name + "=" + value) == Some((name, value))
    decreases |name|
  {
    var arg := name + "=" + value;
    if name == "" {
      assert arg[1..] == value;
    } else {
      CutAtFirstEquals(name[1..], value);
      assert arg[1..] == name[1..] + "=" + value;
      assert [name[0]] + name[1..] == name;
    }
  }

  lemma CutArg(pair: Pair)
    ensures Cut(Arg(pair)) == Some((Name(pair.key), pair.value))
  {
    NameIsPlain(pair.key);
    CutAtFirstEquals(Name(pair.key), pair.value);
  }

  predicate Names(arg: string, k: Key) {
    Cut(arg).Some? && Cut(arg).value.0 == Name(k)
  }

  function Lookup(args: seq<string>, k: Key): Option<string> {
    if args == [] then None
    else if Names(args[|args| - 1], k) then Some(Cut(args[|args| - 1]).value.1)
    else Lookup(args[..|args| - 1], k)
  }

  function Find(pairs: seq<Pair>, k: Key): Option<string> {
    if pairs == [] then None
    else if pairs[|pairs| - 1].key == k then Some(pairs[|pairs| - 1].value)
    else Find(pairs[..|pairs| - 1], k)
  }

  lemma NamesArg(pair: Pair, k: Key)
    ensures Names(Arg(pair), k) <==> k == pair.key
    ensures Cut(Arg(pair)).Some? && Cut(Arg(pair)).value.1 == pair.value
  {
    CutArg(pair);
    if Names(Arg(pair), k) {
      NamesDistinct(k, pair.key);
    }
  }

  lemma LookupAppended(args: seq<string>, pair: Pair, k: Key)
    ensures Lookup(args + [Arg(pair)], k) == if k == pair.key then Some(pair.value) else Lookup(args, k)
  {
    NamesArg(pair, k);
    assert (args + [Arg(pair)])[..|args|] == args;
  }

  lemma LookupNothing(k: Key)
    ensures Lookup(Render([]), k) == None
  {
  }

  /** The reader finds by name what was printed under that key. */
  lemma {:induction false} LookupFinds(pairs: seq<Pair>, k: Key)
    ensures Lookup(Render(pairs), k) == Find(pairs, k)
    decreases |pairs|
  {
    if pairs == [] {
      LookupNothing(k);
    } else {
      LookupFinds(pairs[..|pairs| - 1], k);
      RenderLast(pairs);
      LookupAppended(Render(pairs[..|pairs| - 1]), pairs[|pairs| - 1], k);
    }
  }

  ghost predicate DistinctKeys(entries: seq<Entry>) {
    forall i, j :: 0 <= i < j < |entries| ==> entries[i].key != entries[j].key
  }

  lemma {:induction false} FindBuilt(n: nat, entries: seq<Entry>, i: nat)
    requires n <= |entries| && DistinctKeys(entries) && Built(n, entries).ok && i < |entries|
    ensures Find(Built(n, entries).pairs, entries[i].key) == if i < n then entries[i].value else None
  {
    if n > 0 {
      FindBuilt(n - 1, entries, i);
      var s, e := Built(n - 1, entries), entries[n - 1];
      if e.value.Some? {
        assert (s.pairs + [Pair(e.key, e.value.value)])[..|s.pairs|] == s.pairs;
      }
    }
  }

  lemma {:induction false} BuiltIsOkIffAllAccepted(n: nat, entries: seq<Entry>)
    requires n <= |entries|
    ensures Built(n, entries).ok <==> forall i :: 0 <= i < n && entries[i].value.Some? ==> entries[i].accepted
  {
    if n > 0 {
      BuiltIsOkIffAllAccepted(n - 1, entries);
    }
  }

  lemma KeysAreDistinct(p: Params, tunnelForward: bool)
    requires p.Valid()
    ensures DistinctKeys(Entries(p, tunnelForward))
  {
    forall i, j | 0 <= i < j < KEYS ensures KeyAt(i) != KeyAt(j) {
      IndexOfKeyAt(i);
      IndexOfKeyAt(j);
    }
  }

  function ReadFlag(text: Option<string>, byDefault: bool): bool {
    match text
    case None => byDefault
    case Some(value) => value == "true"
  }

  function FlagIn(args: seq<string>, k: Key, byDefault: bool): bool {
    ReadFlag(Lookup(args, k), byDefault)
  }

  function NumberIn(args: seq<string>, k: Key): nat {
    match Lookup(args, k)
    case None => 0
    case Some(value) => Read(value, 10)
  }

  function ScidIn(args: seq<string>): nat {
    match Lookup(args, Scid)
    case None => 0
    case Some(value) => Read(value, 16)
  }

  function LogLevelIn(args: seq<string>): LogLevel {
    match Lookup(args, LogLevelKey)
    case None => Error
    case Some(value) => ParseLogLevel(value)
  }

  function CodecIn(args: seq<string>, k: Key, byDefault: Codec): Codec {
    match Lookup(args, k)
    case None => byDefault
    case Some(value) => ParseCodec(value)
  }

  function VideoSourceIn(args: seq<string>): VideoSource {
    if Lookup(args, VideoSourceKey) == Some("camera") then Camera else Display
  }

  function AudioSourceIn(args: seq<string>): AudioSource {
    match Lookup(args, AudioSourceKey)
    case None => Output
    case Some(value) => ParseAudioSource(value)
  }

  function FacingIn(args: seq<string>): CameraFacing {
    match Lookup(args, CameraFacingKey)
    case None => Any
    case Some(value) => ParseFacing(value)
  }

  function ReadTimeout(text: Option<string>): int {
    match text
    case None => -1
    case Some(value) => FromMs(Read(value, 10))
  }

  function TimeoutIn(args: seq<string>): int {
    ReadTimeout(Lookup(args, ScreenOffTimeout))
  }

  function ImePolicyIn(args: seq<string>): ImePolicy {
    match Lookup(args, ImePolicyKey)
    case None => Undefined
    case Some(value) => ParseImePolicy(value)
  }

  function ListIn(args: seq<string>): bv8 {
    (if FlagIn(args, ListEncoders, false) then LIST_ENCODERS else 0)
    | (if FlagIn(args, ListDisplays, false) then LIST_DISPLAYS else 0)
    | (if FlagIn(args, ListCameras, false) then LIST_CAMERAS else 0)
    | (if FlagIn(args, ListCameraSizes, false) then LIST_CAMERA_SIZES else 0)
    | (if FlagIn(args, ListApps, false) then LIST_APPS else 0)
  }

  function LockIn(text: Option<string>): OrientationLock {
    match text
    case None => Unlocked
    case Some(t) => if t == "@" then LockedInitial else if "@" <= t then LockedValue else Unlocked
  }

  function OrientationIn(text: Option<string>): Orientation {
    match text
    case None => 0
    case Some(t) => if t == "@" then 0 else ParseOrientation(if "@" <= t then t[1..] else t)
  }

  datatype Decoded = Decoded(params: Params, tunnelForward: bool)

  function Decode(args: seq<string>): Decoded {
    Decoded(
      Params(
        ScidIn(args), LogLevelIn(args),
        FlagIn(args, Video, true), FlagIn(args, Audio, true), FlagIn(args, Control, true),
        NumberIn(args, VideoBitRate), NumberIn(args, AudioBitRate),
        CodecIn(args, VideoCodec, H264), CodecIn(args, AudioCodec, Opus),
        VideoSourceIn(args), AudioSourceIn(args), Lookup(args, AudioDup) == Some("1"),
        Lookup(args, MaxFps), Lookup(args, Angle),
        OrientationIn(Lookup(args, CaptureOrientation)), LockIn(Lookup(args, CaptureOrientation)),
        Lookup(args, Crop), NumberIn(args, MaxSize), NumberIn(args, DisplayId),
        Lookup(args, CameraId), Lookup(args, CameraSize),
        FacingIn(args),
        Lookup(args, CameraAr), NumberIn(args, CameraFps), FlagIn(args, CameraHighSpeed, false),
        FlagIn(args, ShowTouches, false), FlagIn(args, StayAwake, false),
        TimeoutIn(args),
        Lookup(args, VideoCodecOptions), Lookup(args, AudioCodecOptions),
        Lookup(args, VideoEncoder), Lookup(args, AudioEncoder),
        FlagIn(args, ClipboardAutosync, true), FlagIn(args, DownsizeOnError, true), FlagIn(args, Cleanup, true),
        FlagIn(args, PowerOn, true), FlagIn(args, PowerOffOnClose, true),
        Lookup(args, NewDisplay),
        ImePolicyIn(args),
        FlagIn(args, VdDestroyContent, true), FlagIn(args, VdSystemDecorations, true),
        ListIn(args)),
      FlagIn(args, TunnelForward, false))
  }

  /**
    What the arguments tell of the parameters: no audio source without audio, no orientation when the
    device's initial one is kept, whole milliseconds, the five known bits of the list.
   */
  function Normalize(p: Params): Params {
    p.(audioSource := if p.audio then p.audioSource else Output,
       captureOrientation := if p.captureLock == LockedInitial then 0 else p.captureOrientation,
       screenOffTimeout := if p.screenOffTimeout >= 0 then FromMs(ToMs(p.screenOffTimeout)) else -1,
       list := p.list & 0x1F)
  }

  lemma OrientationReadBack(lock: OrientationLock, o: Orientation)
    ensures LockIn(OrientationText(lock, o)) == lock
    ensures OrientationIn(OrientationText(lock, o)) == if lock == LockedInitial then 0 else o
  {
    ServerParams.OrientationReadBack(o);
    var name := OrientationName(o);
    assert ("@" + name)[1..] == name;
    assert "" + name == name;
  }

  ghost predicate Shown(args: seq<string>, k: Key, p: Params, tunnelForward: bool)
    requires p.Valid()
  {
    Lookup(args, k) == Value(k, p, tunnelForward)
  }

  ghost predicate AllShown(args: seq<string>, p: Params, tunnelForward: bool)
    requires p.Valid()
  {
    forall k: Key :: Shown(args, k, p, tunnelForward)
  }

  lemma NumberReadBack(args: seq<string>, k: Key, p: Params, tunnelForward: bool)
    requires p.Valid() && AllShown(args, p, tunnelForward) && IsNumber(k)
    ensures NumberIn(args, k) == NumberOf(k, p)
  {
    assert Shown(args, k, p, tunnelForward);
    if NumberOf(k, p) != 0 {
      ReadPrint(NumberOf(k, p), 10);
    }
  }

  lemma ReadFlagUndoesFlag(value: bool, byDefault: bool)
    ensures ReadFlag(Flag(value, byDefault), byDefault) == value
  {
  }

  lemma FlagReadBack(args: seq<string>, k: Key, p: Params, tunnelForward: bool)
    requires p.Valid() && AllShown(args, p, tunnelForward) && FlagDefault(k).Some?
    ensures FlagIn(args, k, FlagDefault(k).value) == FlagOf(k, p, tunnelForward)
  {
    assert Shown(args, k, p, tunnelForward);
    ReadFlagUndoesFlag(FlagOf(k, p, tunnelForward), FlagDefault(k).value);
  }

  lemma TextReadBack(args: seq<string>, k: Key, p: Params, tunnelForward: bool)
    requires p.Valid() && AllShown(args, p, tunnelForward) && IsText(k)
    ensures Lookup(args, k) == TextOf(k, p)
  {
    assert Shown(args, k, p, tunnelForward);
  }

  lemma ScidReadBack(args: seq<string>, p: Params, tunnelForward: bool)
    requires p.Valid() && AllShown(args, p, tunnelForward)
    ensures ScidIn(args) == p.scid
  {
    assert Shown(args, Scid, p, tunnelForward);
    ReadPrint(p.scid, 16);
  }

  lemma TimeoutTextReadBack(timeout: int)
    ensures ReadTimeout(TimeoutText(timeout)) == if timeout >= 0 then FromMs(ToMs(timeout)) else -1
  {
    if timeout >= 0 {
      ReadPrint(ToMs(timeout), 10);
    }
  }

  lemma TimeoutReadBack(args: seq<string>, p: Params, tunnelForward: bool)
    requires p.Valid() && AllShown(args, p, tunnelForward)
    ensures TimeoutIn(args) == if p.screenOffTimeout >= 0 then FromMs(ToMs(p.screenOffTimeout)) else -1
  {
    assert Shown(args, ScreenOffTimeout, p, tunnelForward);
    TimeoutTextReadBack(p.screenOffTimeout);
  }

  lemma CaptureReadBack(args: seq<string>, p: Params, tunnelForward: bool)
    requires p.Valid() && AllShown(args, p, tunnelForward)
    ensures LockIn(Lookup(args, CaptureOrientation)) == p.captureLock
    ensures OrientationIn(Lookup(args, CaptureOrientation)) ==
            if p.captureLock == LockedInitial then 0 else p.captureOrientation
  {
    assert Shown(args, CaptureOrientation, p, tunnelForward);
    OrientationReadBack(p.captureLock, p.captureOrientation);
  }

  lemma CodecsReadBack(args: seq<string>, p: Params, tunnelForward: bool)
    requires p.Valid() && AllShown(args, p, tunnelForward)
    ensures CodecIn(args, VideoCodec, H264) == p.videoCodec && CodecIn(args, AudioCodec, Opus) == p.audioCodec
  {
    assert Shown(args, VideoCodec, p, tunnelForward) && Shown(args, AudioCodec, p, tunnelForward);
    CodecReadBack(p.videoCodec);
    CodecReadBack(p.audioCodec);
  }

  lemma SourcesReadBack(args: seq<string>, p: Params, tunnelForward: bool)
    requires p.Valid() && AllShown(args, p, tunnelForward)
    ensures VideoSourceIn(args) == p.videoSource
    ensures AudioSourceIn(args) == if p.audio then p.audioSource else Output
    ensures (Lookup(args, AudioDup) == Some("1")) == p.audioDup
  {
    assert Shown(args, VideoSourceKey, p, tunnelForward) && Shown(args, AudioSourceKey, p, tunnelForward);
    assert Shown(args, AudioDup, p, tunnelForward);
    if p.audio {
      AudioSourceReadBack(p.audioSource);
    }
  }

  lemma OtherNamesReadBack(args: seq<string>, p: Params, tunnelForward: bool)
    requires p.Valid() && AllShown(args, p, tunnelForward)
    ensures LogLevelIn(args) == p.logLevel && FacingIn(args) == p.cameraFacing && ImePolicyIn(args) == p.imePolicy
  {
    assert Shown(args, LogLevelKey, p, tunnelForward) && Shown(args, CameraFacingKey, p, tunnelForward);
    assert Shown(args, ImePolicyKey, p, tunnelForward);
    LogLevelReadBack(p.logLevel);
    if p.cameraFacing != Any {
      FacingReadBack(p.cameraFacing);
    }
    if p.imePolicy != Undefined {
      ImePolicyReadBack(p.imePolicy);
    }
  }

  ghost predicate NumbersMatch(args: seq<string>, p: Params) {
    && NumberIn(args, VideoBitRate) == p.videoBitRate && NumberIn(args, AudioBitRate) == p.audioBitRate
    && NumberIn(args, MaxSize) == p.maxSize && NumberIn(args, DisplayId) == p.displayId
    && NumberIn(args, CameraFps) == p.cameraFps
  }

  lemma NumbersReadBack(args: seq<string>, p: Params, tunnelForward: bool)
    requires p.Valid() && AllShown(args, p, tunnelForward)
    ensures NumbersMatch(args, p)
  {
    NumberReadBack(args, VideoBitRate, p, tunnelForward);
    NumberReadBack(args, AudioBitRate, p, tunnelForward);
    NumberReadBack(args, MaxSize, p, tunnelForward);
    NumberReadBack(args, DisplayId, p, tunnelForward);
    NumberReadBack(args, CameraFps, p, tunnelForward);
  }

  ghost predicate StreamFlagsMatch(args: seq<string>, p: Params, tunnelForward: bool) {
    && FlagIn(args, Video, true) == p.video && FlagIn(args, Audio, true) == p.audio
    && FlagIn(args, Control, true) == p.control
    && FlagIn(args, TunnelForward, false) == tunnelForward
  }

  ghost predicate DeviceFlagsMatch(args: seq<string>, p: Params) {
    && FlagIn(args, CameraHighSpeed, false) == p.cameraHighSpeed
    && FlagIn(args, ShowTouches, false) == p.showTouches && FlagIn(args, StayAwake, false) == p.stayAwake
  }

  ghost predicate PowerFlagsMatch(args: seq<string>, p: Params) {
    FlagIn(args, PowerOn, true) == p.powerOn && FlagIn(args, PowerOffOnClose, true) == p.powerOffOnClose
  }

  ghost predicate SessionFlagsMatch(args: seq<string>, p: Params) {
    && FlagIn(args, ClipboardAutosync, true) == p.clipboardAutosync
    && FlagIn(args, DownsizeOnError, true) == p.downsizeOnError && FlagIn(args, Cleanup, true) == p.cleanup
  }

  ghost predicate VdFlagsMatch(args: seq<string>, p: Params) {
    && FlagIn(args, VdDestroyContent, true) == p.vdDestroyContent
    && FlagIn(args, VdSystemDecorations, true) == p.vdSystemDecorations
  }

  lemma StreamFlagsReadBack(args: seq<string>, p: Params, tunnelForward: bool)
    requires p.Valid() && AllShown(args, p, tunnelForward)
    ensures StreamFlagsMatch(args, p, tunnelForward)
  {
    FlagReadBack(args, Video, p, tunnelForward);
    FlagReadBack(args, Audio, p, tunnelForward);
    FlagReadBack(args, Control, p, tunnelForward);
    FlagReadBack(args, TunnelForward, p, tunnelForward);
  }

  lemma DeviceFlagsReadBack(args: seq<string>, p: Params, tunnelForward: bool)
    requires p.Valid() && AllShown(args, p, tunnelForward)
    ensures DeviceFlagsMatch(args, p)
  {
    FlagReadBack(args, CameraHighSpeed, p, tunnelForward);
    FlagReadBack(args, ShowTouches, p, tunnelForward);
    FlagReadBack(args, StayAwake, p, tunnelForward);
  }

  lemma PowerFlagsReadBack(args: seq<string>, p: Params, tunnelForward: bool)
    requires p.Valid() && AllShown(args, p, tunnelForward)
    ensures PowerFlagsMatch(args, p)
  {
    FlagReadBack(args, PowerOn, p, tunnelForward);
    FlagReadBack(args, PowerOffOnClose, p, tunnelForward);
  }

  lemma SessionFlagsReadBack(args: seq<string>, p: Params, tunnelForward: bool)
    requires p.Valid() && AllShown(args, p, tunnelForward)
    ensures SessionFlagsMatch(args, p)
  {
    FlagReadBack(args, ClipboardAutosync, p, tunnelForward);
    FlagReadBack(args, DownsizeOnError, p, tunnelForward);
    FlagReadBack(args, Cleanup, p, tunnelForward);
  }

  lemma VdFlagsReadBack(args: seq<string>, p: Params, tunnelForward: bool)
    requires p.Valid() && AllShown(args, p, tunnelForward)
    ensures VdFlagsMatch(args, p)
  {
    FlagReadBack(args, VdDestroyContent, p, tunnelForward);
    FlagReadBack(args, VdSystemDecorations, p, tunnelForward);
  }

  lemma FiveBits(list: bv8)
    ensures list & 0x1F == (if list & LIST_ENCODERS != 0 then LIST_ENCODERS else 0)
                           | (if list & LIST_DISPLAYS != 0 then LIST_DISPLAYS else 0)
                           | (if list & LIST_CAMERAS != 0 then LIST_CAMERAS else 0)
                           | (if list & LIST_CAMERA_SIZES != 0 then LIST_CAMERA_SIZES else 0)
                           | (if list & LIST_APPS != 0 then LIST_APPS else 0)
  {
  }

  ghost predicate ListFlagsMatch(args: seq<string>, list: bv8) {
    && FlagIn(args, ListEncoders, false) == (list & LIST_ENCODERS != 0)
    && FlagIn(args, ListDisplays, false) == (list & LIST_DISPLAYS != 0)
    && FlagIn(args, ListApps, false) == (list & LIST_APPS != 0)
  }

  ghost predicate ListCameraFlagsMatch(args: seq<string>, list: bv8) {
    && FlagIn(args, ListCameras, false) == (list & LIST_CAMERAS != 0)
    && FlagIn(args, ListCameraSizes, false) == (list & LIST_CAMERA_SIZES != 0)
  }

  lemma ListFlagsReadBack(args: seq<string>, p: Params, tunnelForward: bool)
    requires p.Valid() && AllShown(args, p, tunnelForward)
    ensures ListFlagsMatch(args, p.list)
  {
    FlagReadBack(args, ListEncoders, p, tunnelForward);
    FlagReadBack(args, ListDisplays, p, tunnelForward);
    FlagReadBack(args, ListApps, p, tunnelForward);
  }

  lemma ListCameraFlagsReadBack(args: seq<string>, p: Params, tunnelForward: bool)
    requires p.Valid() && AllShown(args, p, tunnelForward)
    ensures ListCameraFlagsMatch(args, p.list)
  {
    FlagReadBack(args, ListCameras, p, tunnelForward);
    FlagReadBack(args, ListCameraSizes, p, tunnelForward);
  }

  lemma ListReadBack(args: seq<string>, p: Params, tunnelForward: bool)
    requires p.Valid() && AllShown(args, p, tunnelForward)
    ensures ListIn(args) == p.list & 0x1F
  {
    ListFlagsReadBack(args, p, tunnelForward);
    ListCameraFlagsReadBack(args, p, tunnelForward);
    FiveBits(p.list);
  }

  ghost predicate TextsMatch(args: seq<string>, p: Params) {
    && Lookup(args, MaxFps) == p.maxFps && Lookup(args, Angle) == p.angle && Lookup(args, Crop) == p.crop
    && Lookup(args, CameraId) == p.cameraId && Lookup(args, CameraSize) == p.cameraSize
    && Lookup(args, CameraAr) == p.cameraAr
    && Lookup(args, VideoCodecOptions) == p.videoCodecOptions
    && Lookup(args, AudioCodecOptions) == p.audioCodecOptions
    && Lookup(args, VideoEncoder) == p.videoEncoder && Lookup(args, AudioEncoder) == p.audioEncoder
    && Lookup(args, NewDisplay) == p.newDisplay
  }

  lemma TextsReadBack(args: seq<string>, p: Params, tunnelForward: bool)
    requires p.Valid() && AllShown(args, p, tunnelForward)
    ensures TextsMatch(args, p)
  {
    TextReadBack(args, MaxFps, p, tunnelForward);
    TextReadBack(args, Angle, p, tunnelForward);
    TextReadBack(args, Crop, p, tunnelForward);
    TextReadBack(args, CameraId, p, tunnelForward);
    TextReadBack(args, CameraSize, p, tunnelForward);
    TextReadBack(args, CameraAr, p, tunnelForward);
    TextReadBack(args, VideoCodecOptions, p, tunnelForward);
    TextReadBack(args, AudioCodecOptions, p, tunnelForward);
    TextReadBack(args, VideoEncoder, p, tunnelForward);
    TextReadBack(args, AudioEncoder, p, tunnelForward);
    TextReadBack(args, NewDisplay, p, tunnelForward);
  }

  lemma DecodeMatches(args: seq<string>, p: Params, tunnelForward: bool)
    requires p.Valid() && AllShown(args, p, tunnelForward)
    ensures Decode(args) == Decoded(Normalize(p), tunnelForward)
  {
    ScidReadBack(args, p, tunnelForward);
    TimeoutReadBack(args, p, tunnelForward);
    CaptureReadBack(args, p, tunnelForward);
    CodecsReadBack(args, p, tunnelForward);
    SourcesReadBack(args, p, tunnelForward);
    OtherNamesReadBack(args, p, tunnelForward);
    NumbersReadBack(args, p, tunnelForward);
    StreamFlagsReadBack(args, p, tunnelForward);
    DeviceFlagsReadBack(args, p, tunnelForward);
    PowerFlagsReadBack(args, p, tunnelForward);
    SessionFlagsReadBack(args, p, tunnelForward);
    VdFlagsReadBack(args, p, tunnelForward);
    ListReadBack(args, p, tunnelForward);
    TextsReadBack(args, p, tunnelForward);
  }

  lemma PrintedIsShown(p: Params, tunnelForward: bool, k: Key)
    requires p.Valid()
    ensures Printed(p, tunnelForward).ok ==> Shown(Render(Printed(p, tunnelForward).pairs), k, p, tunnelForward)
  {
    var entries, n := Entries(p, tunnelForward), KEYS;
    if Built(n, entries).ok {
      KeysAreDistinct(p, tunnelForward);
      FindBuilt(n, entries, Index(k));
      KeyAtIndex(k);
      assert entries[Index(k)] == EntryOf(k, p, tunnelForward);
      LookupFinds(Built(n, entries).pairs, k);
    }
  }

  /** Reading back what was printed gives the parameters, normalized. */
  lemma DecodePrinted(p: Params, tunnelForward: bool)
    requires p.Valid()
    ensures Printed(p, tunnelForward).ok ==>
              Decode(Render(Printed(p, tunnelForward).pairs)) == Decoded(Normalize(p), tunnelForward)
  {
    var args := Render(Printed(p, tunnelForward).pairs);
    if Printed(p, tunnelForward).ok {
      forall k: Key ensures Shown(args, k, p, tunnelForward) {
        PrintedIsShown(p, tunnelForward, k);
      }
      DecodeMatches(args, p, tunnelForward);
    }
  }

  // ----- what is accepted

  predicate TextClean(k: Key, p: Params) {
    IsText(k) && TextOf(k, p).Some? ==> Clean(TextOf(k, p).value)
  }

  /** No text of the caller that is present has a forbidden character. */
  ghost predicate TextsClean(p: Params) {
    forall k: Key :: TextClean(k, p)
  }

  lemma OrientationTextIsPlain(lock: OrientationLock, o: Orientation)
    ensures OrientationText(lock, o).Some? ==> Plain(OrientationText(lock, o).value)
  {
    assert Plain("@");
    OrientationNameIsPlain(o);
  }

  lemma OrientationNameIsPlain(o: Orientation)
    ensures Plain(OrientationName(o))
  {
  }

  lemma AcceptedUnlessTextUnclean(k: Key, p: Params, tunnelForward: bool)
    requires p.Valid()
    ensures EntryOf(k, p, tunnelForward).accepted <==> TextClean(k, p)
  {
    if k == CaptureOrientation {
      OrientationTextIsPlain(p.captureLock, p.captureOrientation);
      if OrientationText(p.captureLock, p.captureOrientation).Some? {
        PlainIsClean(OrientationText(p.captureLock, p.captureOrientation).value);
      }
    }
  }

  /** The printing goes through if and only if no text that is present has a forbidden character. */
  lemma PrintedIffTextsClean(p: Params, tunnelForward: bool)
    requires p.Valid()
    ensures Printed(p, tunnelForward).ok <==> TextsClean(p)
  {
    var entries, n := Entries(p, tunnelForward), KEYS;
    BuiltIsOkIffAllAccepted(n, entries);
    if TextsClean(p) {
      forall i | 0 <= i < n ensures entries[i].accepted {
        assert TextClean(KeyAt(i), p);
        AcceptedUnlessTextUnclean(KeyAt(i), p, tunnelForward);
      }
    }
    if Built(n, entries).ok {
      forall k: Key ensures TextClean(k, p) {
        KeyAtIndex(k);
        AcceptedUnlessTextUnclean(k, p, tunnelForward);
        assert entries[Index(k)] == EntryOf(k, p, tunnelForward);
      }
    }
  }
}
