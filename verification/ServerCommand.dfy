/**
  The argument vector of execute_server() in src/server/server.cpp, and the command line that
  build_cmd() of src/util/sc_process.cpp joins it into.
 */
module ServerCommand {
  import opened Wrappers
  import opened Numerals
  import opened ServerParams
  import opened CmdFormat
  import opened CmdArguments
  import opened CmdBuilder
  import StrUtil

  const DEVICE_SERVER_PATH := "/data/local/tmp/scrcpy-server"
  const SCRCPY_VERSION := "3.3.4"

  /** What precedes the arguments of the builder. */
  function Prefix(adb: string, serial: string, forward: bool): seq<string> {
    [ adb, "-s", serial, "shell", "CLASSPATH=" + DEVICE_SERVER_PATH, "app_process",
      "/", "com.genymobile.scrcpy.Server", SCRCPY_VERSION,
      if forward then "tunnel_forward=true" else "tunnel_forward=false" ]
  }

  /** adb runs the server in a shell of the device, by its class and its version. */
  ghost predicate StartsTheServer(args: seq<string>, adb: string, serial: string, forward: bool) {
    args == [ adb, "-s", serial, "shell", "CLASSPATH=/data/local/tmp/scrcpy-server", "app_process",
              "/", "com.genymobile.scrcpy.Server", "3.3.4",
              if forward then "tunnel_forward=true" else "tunnel_forward=false" ]
  }

  lemma PrefixStartsTheServer(adb: string, serial: string, forward: bool)
    ensures StartsTheServer(Prefix(adb, serial, forward), adb, serial, forward)
  {
    assert "CLASSPATH=" + DEVICE_SERVER_PATH == "CLASSPATH=/data/local/tmp/scrcpy-server";
  }

  lemma PrefixSpaces(adb: string, serial: string, forward: bool)
    ensures StrUtil.Free(Prefix(adb, serial, forward), ' ') <==> ' ' !in adb && ' ' !in serial
  {
    var prefix := Prefix(adb, serial, forward);
    assert prefix[0] == adb && prefix[2] == serial;
    FixedPrefixHasNoSpace();
    assert forall i | 0 <= i < |prefix| && i != 0 && i != 2 :: ' ' !in prefix[i];
  }

  lemma FixedPrefixHasNoSpace()
    ensures ' ' !in "-s" && ' ' !in "shell" && ' ' !in "CLASSPATH=" + DEVICE_SERVER_PATH
    ensures ' ' !in "app_process" && ' ' !in "/" && ' ' !in "com.genymobile.scrcpy.Server" && ' ' !in SCRCPY_VERSION
    ensures ' ' !in "tunnel_forward=true" && ' ' !in "tunnel_forward=false"
  {
  }

  // ----- no argument of the builder contains a space

  lemma DigitIsPlain(c: char)
    requires c in DIGITS
    ensures PlainChar(c)
  {
  }

  lemma PrintIsPlain(n: nat, base: nat)
    requires Base(base)
    ensures Plain(Print(n, base))
  {
    forall i | 0 <= i < |Print(n, base)| ensures PlainChar(Print(n, base)[i]) {
      DigitIsPlain(Print(n, base)[i]);
    }
  }

  lemma AudioSourceNameIsPlain(a: AudioSource)
    requires a != Auto
    ensures Plain(AudioSourceName(a))
  {
  }

  lemma NamesArePlain(l: LogLevel, c: Codec)
    ensures Plain(LogLevelName(l)) && Plain(CodecName(c))
  {
  }

  lemma OtherNamesArePlain(f: CameraFacing, i: ImePolicy)
    ensures f != Any ==> Plain(FacingName(f))
    ensures i != Undefined ==> Plain(ImePolicyName(i))
  {
  }

  lemma FixedTextsArePlain()
    ensures Plain("true") && Plain("false") && Plain("camera") && Plain("1")
  {
  }

  lemma FlagIsPlain(value: bool, byDefault: bool)
    ensures Flag(value, byDefault).Some? ==> Plain(Flag(value, byDefault).value)
  {
    FixedTextsArePlain();
  }

  lemma NamedValueIsPlain(k: Key, p: Params, tunnelForward: bool)
    requires p.Valid() && !IsText(k) && !IsNumber(k) && FlagDefault(k).None?
    ensures var v := Value(k, p, tunnelForward); v.Some? ==> Plain(v.value)
  {
    FixedTextsArePlain();
    match k
    case Scid => PrintIsPlain(p.scid, 16);
    case LogLevelKey | VideoCodec => NamesArePlain(p.logLevel, p.videoCodec);
    case AudioCodec => NamesArePlain(p.logLevel, p.audioCodec);
    case AudioSourceKey =>
      if p.audioSource != Auto {
        AudioSourceNameIsPlain(p.audioSource);
      }
    case CaptureOrientation => OrientationTextIsPlain(p.captureLock, p.captureOrientation);
    case CameraFacingKey | ImePolicyKey => OtherNamesArePlain(p.cameraFacing, p.imePolicy);
    case ScreenOffTimeout =>
      if p.screenOffTimeout >= 0 {
        PrintIsPlain(Tick.ToMs(p.screenOffTimeout), 10);
      }
    case _ =>
  }

  /** What is not a text of the caller consists of letters, digits, '-' and '@'. */
  lemma ValueIsPlain(k: Key, p: Params, tunnelForward: bool)
    requires p.Valid() && !IsText(k)
    ensures var v := Value(k, p, tunnelForward); v.Some? ==> Plain(v.value)
  {
    if IsNumber(k) {
      PrintIsPlain(NumberOf(k, p), 10);
    } else if FlagDefault(k).Some? {
      FlagIsPlain(FlagOf(k, p, tunnelForward), FlagDefault(k).value);
    } else {
      NamedValueIsPlain(k, p, tunnelForward);
    }
  }

  lemma SpaceIsInvalid(s: string)
    requires Clean(s)
    ensures ' ' !in s
  {
    assert INVALID[0] == ' ';
  }

  lemma ArgHasNoSpace(pair: Pair)
    requires Clean(pair.value)
    ensures ' ' !in Arg(pair)
  {
    SpaceIsInvalid(pair.value);
    NameIsPlain(pair.key);
    PlainIsClean(Name(pair.key));
    SpaceIsInvalid(Name(pair.key));
    assert ' ' !in "=";
  }

  lemma ValueIsClean(k: Key, p: Params, tunnelForward: bool)
    requires p.Valid() && TextClean(k, p)
    ensures var v := Value(k, p, tunnelForward); v.Some? ==> Clean(v.value)
  {
    var v := Value(k, p, tunnelForward);
    if v.Some? && !IsText(k) {
      ValueIsPlain(k, p, tunnelForward);
      PlainIsClean(v.value);
    }
  }

  ghost predicate PairClean(pair: Pair) {
    Clean(pair.value)
  }

  ghost predicate EntriesClean(entries: seq<Entry>) {
    forall i :: 0 <= i < |entries| && entries[i].value.Some? ==>
                  PairClean(Pair(entries[i].key, entries[i].value.value))
  }

  ghost predicate PairsClean(pairs: seq<Pair>) {
    forall i :: 0 <= i < |pairs| ==> PairClean(pairs[i])
  }

  lemma {:induction false} BuiltIsClean(n: nat, entries: seq<Entry>)
    requires n <= |entries| && EntriesClean(entries)
    ensures PairsClean(Built(n, entries).pairs)
  {
    if n > 0 {
      BuiltIsClean(n - 1, entries);
    }
  }

  lemma PrintedIsClean(p: Params, tunnelForward: bool)
    requires p.Valid() && TextsClean(p)
    ensures PairsClean(Printed(p, tunnelForward).pairs)
  {
    var n, entries := KEYS, Entries(p, tunnelForward);
    forall i | 0 <= i < n && entries[i].value.Some?
      ensures PairClean(Pair(entries[i].key, entries[i].value.value))
    {
      assert TextClean(KeyAt(i), p);
      ValueIsClean(KeyAt(i), p, tunnelForward);
    }
    BuiltIsClean(n, entries);
  }

  /** execute_server() up to sc_adb_execute(): None if a parameter is refused. */
  method Argv(adb: string, serial: string, forward: bool, p: Params) returns (argv: Option<seq<string>>)
    requires serial != "" && p.Valid()
    ensures argv.Some? <==> TextsClean(p)
    ensures argv.Some? ==>
              && |argv.value| >= 10 && StartsTheServer(argv.value[..10], adb, serial, forward)
              && argv.value[10..] == Args(p, forward) && Written(argv.value[10..], p, forward)
              && Decode(argv.value[10..]) == Decoded(Normalize(p), forward)
    ensures argv.Some? ==>
              (StrUtil.Split(StrUtil.Join(argv.value, ' '), ' ') == argv.value <==> ' ' !in adb && ' ' !in serial)
  {
    var cmd := [adb, "-s", serial, "shell", "CLASSPATH=" + DEVICE_SERVER_PATH, "app_process"];
    cmd := cmd + ["/", "com.genymobile.scrcpy.Server", SCRCPY_VERSION];
    if forward {
      cmd := cmd + ["tunnel_forward=true"];
    } else {
      cmd := cmd + ["tunnel_forward=false"];
    }
    assert cmd == Prefix(adb, serial, forward);
    var builder := new Builder(cmd);
    var ok := builder.BuildFromParams(p, forward);
    if !ok {
      return None;
    }
    PrefixStartsTheServer(adb, serial, forward);
    assert builder.cmd[..10] == Prefix(adb, serial, forward);
    PrintedIsClean(p, forward);
    ArgvSpaces(adb, serial, forward, builder.pairs);
    StrUtil.SplitUndoesJoinIffFree(builder.cmd, ' ');
    return Some(builder.cmd);
  }

  lemma FreeOfBoth(a: seq<string>, b: seq<string>)
    ensures StrUtil.Free(a + b, ' ') <==> StrUtil.Free(a, ' ') && StrUtil.Free(b, ' ')
  {
    assert forall i :: 0 <= i < |a| ==> (a + b)[i] == a[i];
    assert forall i :: 0 <= i < |b| ==> (a + b)[|a| + i] == b[i];
  }

  lemma RenderHasNoSpace(pairs: seq<Pair>)
    requires PairsClean(pairs)
    ensures StrUtil.Free(Render(pairs), ' ')
  {
    forall i | 0 <= i < |pairs| ensures ' ' !in Render(pairs)[i] {
      assert PairClean(pairs[i]);
      ArgHasNoSpace(pairs[i]);
    }
  }

  lemma ArgvSpaces(adb: string, serial: string, forward: bool, pairs: seq<Pair>)
    requires PairsClean(pairs)
    ensures StrUtil.Free(Prefix(adb, serial, forward) + Render(pairs), ' ') <==> ' ' !in adb && ' ' !in serial
  {
    PrefixSpaces(adb, serial, forward);
    RenderHasNoSpace(pairs);
    FreeOfBoth(Prefix(adb, serial, forward), Render(pairs));
  }
}
