/**
  run_server() of src/server/server.cpp: from starting adb to the end of the session. Calls whose
  effect is not a socket are recorded as events.
 */
module RunServer {
  import opened Connection
  import opened SocketMemory

  datatype Event =
    | AdbKilled
    | ProcessStarted
    | ProcessTerminated
    | HandleClosed           // of the server process
    | ConnectionFailed       // callback; fulfils the connect promise with false
    | Connected              // callback; fulfils the connect promise with true
    | Stopped                // the wait for stop is over

  /** Where a run ended. */
  datatype RunEnd =
    | NoAdb | NoDevice | NoSerial | NotPushed | NoTunnel | NotStarted | NotObserved | NotConnected
    | Session(terminated: bool)      // the process had to be terminated in the end

  /** The events of a run that ended there. */
  function EventsOf(end: RunEnd, killAdb: bool): seq<Event> {
    var killed := if killAdb then [AdbKilled] else [];
    match end
    case NoAdb => killed + [ConnectionFailed]
    case NoDevice => killed + [ConnectionFailed]
    case NotObserved => [ProcessStarted, ProcessTerminated, HandleClosed, ConnectionFailed]
    case NotConnected => [ProcessStarted, ProcessTerminated, HandleClosed, ConnectionFailed]
    case Session(false) => [ProcessStarted, Connected, Stopped, HandleClosed] + killed
    case Session(true) => [ProcessStarted, Connected, Stopped, ProcessTerminated, HandleClosed] + killed
    case _ => [ConnectionFailed]
  }

  datatype Config = Config(force: bool, killAdb: bool, tcpip: bool, first: uint16, last: uint16)

  class Runner {
    const config: Config
    const server: Server
    var serial: string
    var events: seq<Event>

    constructor (config: Config, server: Server, serial: string)
      ensures this.config == config && this.server == server && this.serial == serial && events == []
    {
      this.config, this.server, this.serial, events := config, server, serial, [];
    }

    method Emit(e: Event)
      modifies this`events
      ensures events == old(events) + [e]
    {
      events := events + [e];
    }

    method KillAdbIfRequested()
      modifies this`events
      ensures events == old(events) + if config.killAdb then [AdbKilled] else []
    {
      if config.killAdb {
        Emit(AdbKilled);
      }
    }

    /** The serial that the adb commands are given. */
    function SerialInUse(before: string, deviceSerial: string): string {
      if config.tcpip then before else deviceSerial
    }

    /** How a run ends if nothing fails and no interrupt comes. */
    function EndIfSmooth(serialInUse: string, terminated: bool): RunEnd {
      if serialInUse == "" then NoSerial
      else if config.force then NoTunnel
      else if !AnyStream(server.params) then NotConnected
      else Session(terminated)
    }

    /**
      Exactly one callback is made, and the handle of the server process is closed once if the process was
      started. Only if the process observer could not be created, `end.NotObserved?`, does the tunnel stay.
     */
    method Run(w: World, deviceSerial: string) returns (result: int, ghost end: RunEnd, ghost earlier: seq<Sock>)
      requires w.Valid() && !server.tunnel.enabled && !server.tunnel.forward && events == []
      modifies this, server`streams, server.tunnel, w
      ensures events == EventsOf(end, config.killAdb) && result == (if end.Session? then 0 else -1)
      ensures multiset(events)[Connected] == if result == 0 then 1 else 0
      ensures multiset(events)[ConnectionFailed] == if result == 0 then 0 else 1
      ensures multiset(events)[HandleClosed] == multiset(events)[ProcessStarted] <= 1
      ensures w.Smooth() ==> end == EndIfSmooth(SerialInUse(old(serial), deviceSerial), end.Session? && end.terminated)
      ensures w.Smooth() && result == 0 ==> server.tunnel.localPort == config.first
      ensures result == 0 ==> !config.force && SerialInUse(old(serial), deviceSerial) != "" && AnyStream(server.params)
      ensures result == 0 ==> serial == SerialInUse(old(serial), deviceSerial)
      ensures server.tunnel.enabled <==> end == NotObserved
      ensures w.Valid() && w.Extends() && (result != 0 ==> w.Grows())
      ensures result == 0 ==> OnePerStream(server.params, server.streams)
      ensures result == 0 ==> w.made == InOrder(earlier, server.streams)
      ensures result == 0 ==> w.live == old(w.live) + Sockets(server.streams)
      ensures result == 0 ==> Sockets(server.streams) <= w.shut && Sockets(server.streams) !! old(w.known)
      ensures result != 0 ==> w.live == old(w.live) + server.tunnel.Owned()
    {
      result, earlier := -1, w.made;
      var ok;
      ok, end := Prepare(w, deviceSerial);
      if ok {
        assert w.live - server.tunnel.Owned() == old(w.live);
        result, end, earlier := RunProcess(w);
      }
      CountEvents(end, config.killAdb);
    }

    /** Up to the tunnel. */
    method Prepare(w: World, deviceSerial: string) returns (ok: bool, ghost end: RunEnd)
      requires w.Valid() && !server.tunnel.enabled && !server.tunnel.forward && events == []
      modifies this, server.tunnel, w
      ensures w.Valid() && w.Grows() && !server.tunnel.forward && server.tunnel.Valid(w.live)
      ensures ok == server.tunnel.enabled
      ensures ok ==> events == [] && !config.force && serial == SerialInUse(old(serial), deviceSerial) != ""
      ensures !ok ==> events == EventsOf(end, config.killAdb) && !end.Session? && end != NotObserved
      ensures !ok && w.Smooth() ==>
        end == (if SerialInUse(old(serial), deviceSerial) == "" then NoSerial else NoTunnel)
      ensures w.Smooth() ==> (ok <==> !config.force && SerialInUse(old(serial), deviceSerial) != "")
      ensures w.Smooth() && ok ==> server.tunnel.localPort == config.first
      ensures w.live == old(w.live) + server.tunnel.Owned()
      ensures server.tunnel.Owned() !! old(w.known)
    {
      ok, end := false, NoAdb;
      var adbStarted := w.Try();
      if !adbStarted {
        KillAdbIfRequested();
        Emit(ConnectionFailed);
        return;
      }
      var selected := w.Try();
      if !selected {
        KillAdbIfRequested();
        Emit(ConnectionFailed);
        return false, NoDevice;
      }
      if !config.tcpip {
        serial := deviceSerial;
      }
      if serial == "" {
        Emit(ConnectionFailed);
        return false, NoSerial;
      }
      var pushed := w.Try();
      if !pushed {
        Emit(ConnectionFailed);
        return false, NotPushed;
      }
      ghost var failed, searchEnd;
      ok, failed, searchEnd := server.tunnel.Open(w, config.first, config.last, config.force);
      if !ok {
        Emit(ConnectionFailed);
        end := NoTunnel;
      }
    }

    /** From execute_server() on. */
    method RunProcess(w: World) returns (result: int, ghost end: RunEnd, ghost earlier: seq<Sock>)
      requires w.Valid() && !server.tunnel.forward && events == []
      requires server.tunnel.enabled && server.tunnel.Valid(w.live)
      modifies this`events, server`streams, server.tunnel`enabled, server.tunnel`ruleKept, w
      ensures events == EventsOf(end, config.killAdb) && result == (if end.Session? then 0 else -1)
      ensures w.Smooth() ==> if AnyStream(server.params) then end.Session? else end == NotConnected
      ensures server.tunnel.enabled <==> end == NotObserved
      ensures end == NotObserved ==> w.live == old(w.live) && server.tunnel.Owned() == old(server.tunnel.Owned())
      ensures w.Valid() && w.Extends() && (result != 0 ==> w.Grows())
      ensures result == 0 ==> OnePerStream(server.params, server.streams) && Sockets(server.streams) !! old(w.known)
      ensures result == 0 ==> AnyStream(server.params) && w.made == InOrder(earlier, server.streams)
      ensures result == 0 ==> w.live == old(w.live - server.tunnel.Owned()) + Sockets(server.streams)
      ensures result == 0 ==> Sockets(server.streams) <= w.shut
      ensures result != 0 && end != NotObserved ==> w.live == old(w.live - server.tunnel.Owned())
    {
      end, result, earlier := NotStarted, -1, w.made;
      var started := w.Try();
      if !started {
        var closed := server.tunnel.Close(w);
        Emit(ConnectionFailed);
        return;
      }
      Emit(ProcessStarted);
      var observing := w.Try();
      if !observing {
        TerminateAndFail();
        end := NotObserved;
        return;
      }
      var ok;
      ghost var connected, leaked, read;
      ok, connected, leaked, read, earlier := server.ConnectTo(w);
      if !ok {
        TerminateAndFail();
        end := NotConnected;
        return;
      }
      end := Converse(w);
      result := 0;
    }

    /**
      Connected: waits for stop, wakes whoever reads the streams, and gives the process a second to end. The wait
      is an untimed one on the mutex of the server. If another thread locks that mutex meanwhile to set the
      stop flag, the unlock that follows fails its assert (LockOwnership.UnlockAfterWaitFailsIff).
     */
    method Converse(w: World) returns (ghost end: RunEnd)
      requires w.Valid() && Sockets(server.streams) <= w.live && Distinct(server.streams)
      requires events == [ProcessStarted]
      modifies this`events, w`mem, w`shut
      ensures end.Session? && events == EventsOf(end, config.killAdb)
      ensures w.Valid() && w.Extends() && w.live == old(w.live)
      ensures Sockets(server.streams) <= w.shut
    {
      Emit(Connected);
      Emit(Stopped);
      InterruptStreams(w, server.streams);
      var terminated := *;
      if !terminated {
        Emit(ProcessTerminated);
      }
      Emit(HandleClosed);
      KillAdbIfRequested();
      end := Session(!terminated);
    }

    /** sc_process_wait() with `close` set closes the handle. */
    method TerminateAndFail()
      modifies this`events
      ensures events == old(events) + [ProcessTerminated, HandleClosed, ConnectionFailed]
    {
      Emit(ProcessTerminated);
      Emit(HandleClosed);
      Emit(ConnectionFailed);
    }
  }

  method InterruptStreams(w: World, st: Streams)
    requires w.Valid() && Sockets(st) <= w.live && Distinct(st)
    modifies w`mem, w`shut
    ensures w.Valid() && w.Extends() && w.live == old(w.live)
    ensures Sockets(st) <= w.shut
  {
    w.InterruptIfSome(st.video);
    w.InterruptIfSome(st.audio);
    w.InterruptIfSome(st.control);
  }

  /** One callback, and as many handles closed as processes started. */
  ghost predicate Balanced(events: seq<Event>, connected: bool) {
    var m := multiset(events);
    && m[Connected] == (if connected then 1 else 0) && m[ConnectionFailed] == (if connected then 0 else 1)
    && m[HandleClosed] == m[ProcessStarted] <= 1
  }

  lemma CountSession(terminated: bool, killAdb: bool)
    ensures Balanced(EventsOf(Session(terminated), killAdb), true)
  {
    var killed := if killAdb then [AdbKilled] else [];
    CountSessionItself();
    if terminated {
      CountBoth([ProcessStarted, Connected, Stopped, ProcessTerminated, HandleClosed], killed);
    } else {
      CountBoth([ProcessStarted, Connected, Stopped, HandleClosed], killed);
    }
  }

  lemma CountSessionItself()
    ensures Balanced([ProcessStarted, Connected, Stopped, HandleClosed], true)
    ensures Balanced([ProcessStarted, Connected, Stopped, ProcessTerminated, HandleClosed], true)
  {
  }

  lemma CountBoth(events: seq<Event>, killed: seq<Event>)
    requires Balanced(events, true) && (killed == [] || killed == [AdbKilled])
    ensures Balanced(events + killed, true)
  {
    assert multiset(events + killed) == multiset(events) + multiset(killed);
  }

  lemma CountEarlyEnd(end: RunEnd, killAdb: bool)
    requires end.NoAdb? || end.NoDevice?
    ensures Balanced(EventsOf(end, killAdb), false)
  {
  }

  lemma CountEvents(end: RunEnd, killAdb: bool)
    ensures Balanced(EventsOf(end, killAdb), end.Session?)
  {
    match end
    case Session(terminated) => CountSession(terminated, killAdb);
    case NoAdb => CountEarlyEnd(end, killAdb);
    case NoDevice => CountEarlyEnd(end, killAdb);
    case _ =>
  }
}
