/**
  Connecting to the device: the tunnel of src/adb/adb_tunnel.cpp and sc_server_connect_to() with its
  retry loop in src/server/server.cpp. Every system call may succeed or fail, and another thread may
  interrupt any call that blocks; sockets are the wrappers of SocketMemory.
 */
module Connection {
  import opened Wrappers
  import opened SocketMemory
  import opened NetIntr

  newtype uint16 = x: int | 0 <= x < 0x1_0000
  newtype uint32 = x: int | 0 <= x < 0x1_0000_0000

  /**
    How a call that blocks met the interrupts: one came before it, so it was refused; one struck while
    its socket was published; or none disturbed it. A call that was struck may still have done its work.
   */
  datatype CallEnd = Refused | Struck(done: bool) | Undisturbed(done: bool) {
    predicate Done() {
      !Refused? && done
    }
  }

  ghost predicate Look(m: Memory) {
    true
  }

  /** An interrupt closes the handle that is published. */
  function CallEffect(m: Memory, s: Sock, end: CallEnd): Memory {
    if end.Struck? then Shut(m, s) else m
  }

  class World {
    var mem: Memory
    var next: int                 // addresses and handles below this may have been used
    var interrupted: bool
    var faults: nat               // calls that failed
    ghost var live: set<Sock>     // wrappers not freed
    ghost var known: set<Sock>    // wrappers ever allocated
    ghost var made: seq<Sock>     // the same in the order in which they were allocated
    ghost var dialed: map<Sock, uint16>  // the port that a socket was connected to
    ghost var heard: set<Sock>    // sockets that were read from
    var stopped: bool             // m_stopped
    ghost var shut: set<Sock>     // wrappers whose flag is set

    /** What ties the sets to the memory. */
    ghost predicate Tied(m: Memory)
      reads this`next, this`live, this`known, this`shut
    {
      && MemoryInv(m, None)
      && known == m.heap.Keys
      && (forall s :: s in live <==> Live(m, s))
      && (forall s :: s in shut <==> Flagged(m, s))
      && (forall s :: s in m.heap ==> s < next)
      && (forall raw :: raw in m.closes ==> raw < next)
    }

    /** Callers go by the sets alone: the memory comes into view only where Look(mem) is mentioned. */
    ghost predicate Valid()
      reads this`mem, this`next, this`live, this`known, this`shut
    {
      && live <= known && shut <= known
      && (forall m {:trigger Look(m)} :: m == mem && Look(m) ==> Tied(m))
    }

    /** Sockets known before are still known, and no freed one came back. */
    twostate predicate Extends()
      reads this
    {
      && (old(interrupted) ==> interrupted)
      && old(faults) <= faults
      && old(known) <= known && live * old(known) <= old(live)
      && (forall s :: s in old(mem.heap) ==>
            s in mem.heap && mem.heap[s].raw == old(mem.heap[s].raw))
    }

    /** Besides, a socket is still open unless it was freed or an interrupt came. */
    twostate predicate Grows()
      reads this
    {
      && Extends()
      && (live * shut <= old(shut) || interrupted)
    }

    /** No call failed, and no interrupt came. */
    twostate predicate Smooth()
      reads this
    {
      faults == old(faults) && !interrupted
    }

    /** The handle of a wrapper has been closed, once, exactly if its flag is set. */
    lemma ShutIsClosed(s: Sock)
      requires Valid() && s in known
      ensures s in mem.heap && mem.heap[s].raw in mem.closes
      ensures mem.closes[mem.heap[s].raw] == if s in shut then 1 else 0
    {
      assert Look(mem);
    }

    /** Every handle made in between was closed exactly once or belongs to one of the sockets kept. */
    twostate lemma NewHandlesClosedOnce(keep: set<Sock>)
      requires old(Valid()) && Valid() && Extends() && live <= old(live) + keep
      ensures NewHandlesClosed(old(mem), mem, keep)
    {
      assert Look(mem) && Look(old(mem));
      forall raw | raw in mem.closes && raw !in old(mem.closes)
        ensures mem.closes[raw] == 1 || exists s :: s in keep && Owns(mem, s, raw)
      {
        assert forall s :: s in old(mem.heap) ==> !Owns(mem, s, raw);
        if forall s :: Owns(mem, s, raw) ==> !Live(mem, s) {
          ClosedOnceUnlessLive(mem, raw);
        }
      }
    }

    constructor ()
      ensures Valid() && live == {} && made == [] && !interrupted
    {
      mem, next, interrupted, faults := Memory(map[], map[]), 0, false, 0;
      live, known, shut, made, dialed, heard := {}, {}, {}, [], map[], {};
      stopped := false;
    }

    /** A call that succeeds or fails freely. */
    method Try() returns (ok: bool)
      modifies this`faults
      ensures faults == old(faults) + if ok then 0 else 1
    {
      ok := *;
      if !ok {
        faults := faults + 1;
      }
    }

    /** wrap() of a handle the system just gave out. */
    method NewSocket() returns (r: Option<Sock>)
      requires Valid()
      modifies this`mem, this`next, this`live, this`known, this`made, this`faults
      ensures Valid() && Grows()
      ensures live == old(live) + One(r) && made == Then(old(made), r)
      ensures r.Some? ==> r.value !in old(known)
      ensures faults == old(faults) + if r.Some? then 0 else 1
    {
      var haveHandle := Try();
      if !haveHandle {
        return None;
      }
      var haveMemory := Try();
      assert Look(mem);
      WrapKeeps(mem, None, next, next, haveMemory);
      mem := Wrap(mem, next, next, haveMemory);
      r := if haveMemory then Some(next) else None;
      next := next + 1;
      live, known, made := live + One(r), known + One(r), Then(made, r);
    }

    method NetClose(s: Sock)
      requires Valid() && s in live
      modifies this`mem, this`live, this`shut
      ensures Valid() && Grows()
      ensures live == old(live) - {s}
      ensures shut == old(shut) + {s}
    {
      assert Look(mem);
      ShutKeeps(mem, s);
      FreeKeeps(Shut(mem, s), s);
      mem := Free(Shut(mem, s), s);
      live, shut := live - {s}, shut + {s};
    }

    /** net_interrupt() by the thread that holds the socket. */
    method InterruptIfSome(s: Option<Sock>)
      requires Valid() && One(s) <= live
      modifies this`mem, this`shut
      ensures Valid() && Extends()
      ensures mem == if s.Some? then Shut(old(mem), s.value) else old(mem)
      ensures shut == old(shut) + One(s)
    {
      assert Look(mem);
      if s.Some? {
        ShutKeeps(mem, s.value);
        mem := Shut(mem, s.value);
      }
      shut := shut + One(s);
    }

    /**
      A net_*_intr() call on a socket; an interrupt may also come when the slot is empty again. That nothing but
      the handle of s is closed meanwhile, and only by an interrupt while s is published, is what
      InterruptProtocol.CallTouchesOnlyItsSocket shows of every run; Refused is NoCallAfterInterrupt, and
      Struck(true) is CallComesBackClosed.
     */
    method Block(s: Sock) returns (ok: bool, ghost end: CallEnd)
      requires Valid() && s in live
      modifies this`mem, this`shut, this`interrupted, this`faults
      ensures Valid() && Grows()
      ensures faults == old(faults) + if end.Refused? || end.Done() then 0 else 1
      ensures shut == old(shut) + if end.Struck? then {s} else {}
      ensures mem == CallEffect(old(mem), s, end) && ok == end.Done()
      ensures old(interrupted) ==> end == Refused
      ensures !end.Undisturbed? ==> interrupted
    {
      var before := *;
      interrupted := interrupted || before;
      if interrupted {
        return false, Refused;
      }
      var struck := *;
      if struck {
        InterruptIfSome(Some(s));
        interrupted := true;
      }
      ok := Try();
      end := if struck then Struck(ok) else Undisturbed(ok);
      var after := *;
      interrupted := interrupted || after;
    }

    /** net_connect_intr() */
    method Connect(s: Sock, port: uint16) returns (ok: bool, ghost end: CallEnd)
      requires Valid() && s in live
      modifies this`mem, this`shut, this`interrupted, this`faults, this`dialed
      ensures Valid() && Grows()
      ensures dialed == if ok then old(dialed)[s := port] else old(dialed)
      ensures Smooth() ==> ok
      ensures old(interrupted) ==> end == Refused
      ensures ok ==> end.Done()
    {
      ok, end := Block(s);
      if ok {
        dialed := dialed[s := port];
      }
    }

    /** net_recv_intr() */
    method Receive(s: Sock) returns (ok: bool, ghost end: CallEnd)
      requires Valid() && s in live
      modifies this`mem, this`shut, this`interrupted, this`faults, this`heard
      ensures Valid() && Grows() && ok == end.Done()
      ensures heard == if ok then old(heard) + {s} else old(heard)
      ensures faults == old(faults) + if end.Refused? || end.Done() then 0 else 1
      ensures shut == old(shut) + if end.Struck? then {s} else {}
      ensures old(interrupted) ==> end == Refused
      ensures !end.Undisturbed? ==> interrupted
    {
      ok, end := Block(s);
      if ok {
        heard := heard + {s};
      }
    }

    /** sc_server_sleep(): false only if the server is stopped, and at once if it was stopped before. */
    method Sleep() returns (slept: bool)
      modifies this`stopped
      ensures old(stopped) ==> stopped && !slept
      ensures !slept ==> stopped
    {
      var now := *;
      slept := !stopped && !now;
      stopped := stopped || now;
    }

    /** net_accept_intr(): the new socket is not published, so no interrupt closes it. */
    method Accept(server: Sock) returns (r: Option<Sock>)
      requires Valid() && server in live
      modifies this`mem, this`next, this`live, this`known, this`made, this`faults, this`shut, this`interrupted
      ensures Valid() && Grows()
      ensures live == old(live) + One(r) && made == Then(old(made), r)
      ensures r.Some? ==> r.value !in old(known)
      ensures Smooth() ==> r.Some?
      ensures old(shut) <= shut <= old(shut) + {server}
      ensures old(interrupted) ==> r == None
    {
      ghost var end;
      var ok;
      ok, end := Block(server);
      if !ok {
        return None;
      }
      r := NewSocket();
    }

    /** The flag may be raised between any two steps. */
    method IsInterrupted() returns (b: bool)
      requires Valid()
      modifies this`interrupted
      ensures b == interrupted && (old(interrupted) ==> interrupted)
    {
      var now := *;
      interrupted := interrupted || now;
      b := interrupted;
    }
  }

  ghost predicate NewHandlesClosed(before: Memory, after: Memory, keep: set<Sock>) {
    forall raw :: raw in after.closes && raw !in before.closes ==>
      after.closes[raw] == 1 || exists s :: s in keep && Owns(after, s, raw)
  }

  /** A new socket that listens; it is closed again if listening fails. Struck while it listens, it is shut. */
  method ListenOnPort(w: World) returns (r: Option<Sock>, ghost end: CallEnd)
    requires w.Valid()
    modifies w
    ensures w.Valid() && w.Grows()
    ensures w.live == old(w.live) + One(r)
    ensures r.Some? ==> r.value !in old(w.known)
    ensures r.Some? ==> (r.value in w.shut <==> end.Struck?)
    ensures end.Struck? ==> w.interrupted
    ensures w.Smooth() ==> r.Some?
  {
    end := Undisturbed(false);
    r := w.NewSocket();
    if r.Some? {
      var listening;
      listening, end := w.Block(r.value);
      if !listening {
        w.NetClose(r.value);
        r := None;
      }
    }
  }

  function One(s: Option<Sock>): set<Sock> {
    if s.Some? then {s.value} else {}
  }

  function Then(made: seq<Sock>, s: Option<Sock>): seq<Sock> {
    if s.Some? then made + [s.value] else made
  }

  /** How a search for a port ended. */
  datatype SearchEnd = Found | AdbFailed | Interrupted | Exhausted

  /** The search went through this many ports in vain, from the first one up, and gave up only at the last one. */
  ghost predicate Searched(first: uint16, last: uint16, failed: nat, end: SearchEnd) {
    var size := if first <= last then last as int - first as int + 1 else 1;
    failed <= size && (end == Found ==> failed < size) && (end == Exhausted ==> failed == size)
  }

  class Tunnel {
    var enabled: bool
    var forward: bool
    var serverSocket: Option<Sock>
    var localPort: uint16
    ghost var ruleKept: bool    // an `adb reverse` succeeded and its removal was not asked for since

    constructor ()
      ensures !enabled && !forward && serverSocket == None && localPort == 0 && !ruleKept
    {
      enabled, forward, serverSocket, localPort, ruleKept := false, false, None, 0, false;
    }

    /** An enabled reverse tunnel holds a socket that is not freed. */
    ghost predicate Valid(live: set<Sock>)
      reads this
    {
      enabled && !forward ==> serverSocket.Some? && serverSocket.value in live
    }

    /** The socket the tunnel owns. */
    ghost function Owned(): set<Sock>
      reads this
    {
      if enabled && !forward then One(serverSocket) else {}
    }

    /** Tries ports upwards; listening failed on the first `failed` of the range. */
    method EnableReverseAnyPort(w: World, first: uint16, last: uint16)
      returns (ok: bool, ghost failed: nat, ghost end: SearchEnd, ghost listening: CallEnd)
      requires w.Valid() && !enabled
      modifies this, w
      ensures w.Valid() && w.Grows() && Valid(w.live) && forward == old(forward)
      ensures ok == enabled == (end == Found)
      ensures ok ==> serverSocket.Some? && serverSocket.value !in old(w.known)
      ensures ok ==> (serverSocket.value in w.shut <==> listening.Struck?)
      ensures ok && listening.Struck? ==> w.interrupted
      ensures w.live == old(w.live) + if ok then One(serverSocket) else {}
      ensures !ok ==> serverSocket == old(serverSocket) && localPort == old(localPort)
      ensures Searched(first, last, failed, end)
      ensures ok ==> localPort as int == first as int + failed
      ensures w.interrupted || w.faults >= old(w.faults) + failed
      ensures end == Interrupted ==> w.interrupted
      ensures end == AdbFailed ==> w.faults > old(w.faults)
      ensures w.Smooth() ==> ok && localPort == first
      ensures ruleKept == if end == AdbFailed && failed == 0 then old(ruleKept) else end == Found || end == Interrupted
    {
      failed, end, listening := 0, Exhausted, Refused;
      var port := first;
      while true
        invariant w.Valid() && w.Grows() && !enabled && forward == old(forward)
        invariant w.live == old(w.live)
        invariant w.faults >= old(w.faults) + failed && (failed > 0 ==> !w.interrupted)
        invariant serverSocket == old(serverSocket) && localPort == old(localPort)
        invariant port as int == first as int + failed && (failed == 0 || port <= last)
        invariant ruleKept == if failed == 0 then old(ruleKept) else false
        decreases last as int - port as int
      {
        var reversed := w.Try();
        if !reversed {
          return false, failed, AdbFailed, listening;
        }
        ruleKept := true;
        var socket;
        socket, listening := ListenOnPort(w);
        if socket.Some? {
          serverSocket, localPort, enabled := socket, port, true;
          return true, failed, Found, listening;
        }
        failed := failed + 1;
        var interrupted := w.IsInterrupted();
        if interrupted {
          return false, failed, Interrupted, listening;
        }
        ruleKept := false;
        // port + 1 is computed only below `last`, so it is at most 65535
        if port < last {
          port := port + 1;
        } else {
          return false, failed, Exhausted, listening;
        }
      }
    }

    /** The forward variant is not implemented and always fails. */
    method Open(w: World, first: uint16, last: uint16, forceForward: bool)
      returns (ok: bool, ghost failed: nat, ghost end: SearchEnd)
      requires w.Valid() && !enabled
      modifies this, w
      ensures w.Valid() && w.Grows() && Valid(w.live) && forward == old(forward)
      ensures ok == enabled && (forceForward ==> !ok && failed == 0)
      ensures !forceForward ==> Searched(first, last, failed, end) && ok == (end == Found)
      ensures end == Interrupted ==> w.interrupted
      ensures end == AdbFailed ==> w.faults > old(w.faults)
      ensures ok ==> localPort as int == first as int + failed
      ensures w.interrupted || w.faults >= old(w.faults) + failed
      ensures ok ==> serverSocket.Some? && serverSocket.value !in old(w.known)
      ensures ok && serverSocket.value in w.shut ==> w.interrupted
      ensures w.live == old(w.live) + if ok then One(serverSocket) else {}
      ensures w.Smooth() && !forceForward ==> ok && localPort == first
    {
      failed, end := 0, Exhausted;
      if !forceForward {
        ghost var listening;
        ok, failed, end, listening := EnableReverseAnyPort(w, first, last);
        if ok {
          return;
        }
      }
      ok := false;
    }

    /** The tunnel counts as disabled even if the adb command fails. */
    method Close(w: World) returns (ok: bool)
      requires w.Valid() && enabled && Valid(w.live)
      modifies this`enabled, this`ruleKept, w`mem, w`live, w`shut, w`faults
      ensures w.Valid() && w.Grows() && !enabled
      ensures w.live == old(w.live) - old(Owned())
      ensures w.shut == old(w.shut) + old(Owned())
      ensures forward || !ruleKept
    {
      ok := w.Try();
      if !forward {
        ruleKept := false;
        w.NetClose(serverSocket.value);
      }
      enabled := false;
    }
  }

  datatype Params = Params(video: bool, audio: bool, control: bool, tunnelPort: uint16)

  /** The sockets of the enabled streams. */
  datatype Streams = Streams(video: Option<Sock>, audio: Option<Sock>, control: Option<Sock>)

  const NO_STREAMS := Streams(None, None, None)

  function Sockets(st: Streams): set<Sock> {
    One(st.video) + One(st.audio) + One(st.control)
  }

  ghost predicate Distinct(st: Streams) {
    One(st.video) !! One(st.audio) !! One(st.control)
  }

  /** The sockets of the streams, in the order in which the device serves them, after those made before. */
  function InOrder(made: seq<Sock>, st: Streams): seq<Sock> {
    Then(Then(Then(made, st.video), st.audio), st.control)
  }

  /** The socket is connected to this port. */
  ghost predicate ConnectedTo(dialed: map<Sock, uint16>, s: Sock, port: uint16) {
    s in dialed && dialed[s] == port
  }

  ghost predicate AllConnectedTo(dialed: map<Sock, uint16>, all: set<Sock>, port: uint16) {
    forall s :: s in all ==> ConnectedTo(dialed, s, port)
  }

  /** connect_and_read_byte() */
  method ConnectAndReadByte(w: World, s: Sock, port: uint16) returns (ok: bool)
    requires w.Valid() && s in w.live
    modifies w`mem, w`shut, w`interrupted, w`faults, w`dialed, w`heard
    ensures w.Valid() && w.Grows()
    ensures old(w.interrupted) ==> !ok
    ensures w.dialed == old(w.dialed) || w.dialed == old(w.dialed)[s := port]
    ensures ok ==> w.dialed == old(w.dialed)[s := port] && s in w.heard
    ensures w.Smooth() ==> ok
  {
    ghost var end;
    ok, end := w.Connect(s, port);
    if !ok {
      return;
    }
    ok, end := w.Receive(s);
  }

  /** One try: a socket that is not connected, or that nothing comes from, is closed again. */
  method TryOnce(w: World, port: uint16) returns (r: Option<Sock>, ghost earlier: seq<Sock>)
    requires w.Valid()
    modifies w`mem, w`next, w`live, w`known, w`made, w`faults, w`shut, w`interrupted, w`dialed, w`heard
    ensures w.Valid() && w.Grows()
    ensures w.live == old(w.live) + One(r)
    ensures r.Some? ==> r.value !in old(w.known) && w.made == earlier + [r.value] && !old(w.interrupted)
    ensures r.Some? ==> ConnectedTo(w.dialed, r.value, port) && r.value in w.heard
    ensures r == None ==> w.interrupted || w.faults > old(w.faults)
  {
    earlier := w.made;
    r := w.NewSocket();
    if r.Some? {
      var ok := ConnectAndReadByte(w, r.value, port);
      if !ok {
        w.NetClose(r.value);
        r := None;
      }
    }
  }

  /** How the tries to connect ended. */
  datatype RetryEnd = Reached | Hindered | StoppedEarly | OutOfTries

  /** The tries that 0 stands for, counted down in 32 bits. */
  function Tries(attempts: uint32): nat {
    if attempts == 0 then 0x1_0000_0000 else attempts as int
  }

  /** The retry loop; `attempts` is unsigned, so 0 means 2^32, and then it does not sleep after the first try. */
  method ConnectToServer(w: World, attempts: uint32, port: uint16)
    returns (r: Option<Sock>, ghost tries: nat, ghost sleeps: nat, ghost end: RetryEnd, ghost earlier: seq<Sock>)
    requires w.Valid()
    modifies w
    ensures w.Valid() && w.Grows()
    ensures w.live == old(w.live) + One(r)
    ensures r.Some? ==> r.value !in old(w.known) && w.made == earlier + [r.value]
    ensures r.Some? ==> ConnectedTo(w.dialed, r.value, port) && r.value in w.heard
    ensures 1 <= tries <= Tries(attempts)
    ensures r.Some? <==> end == Reached
    ensures end == Hindered ==> w.interrupted
    ensures end == StoppedEarly ==> w.stopped
    ensures end == OutOfTries ==> tries == Tries(attempts) && sleeps == tries - if attempts == 0 then 1 else 0
    ensures w.interrupted || w.faults >= old(w.faults) + tries - if r.Some? then 1 else 0
    ensures old(w.interrupted) ==> r == None && tries == 1
    ensures old(w.stopped) ==> tries <= if attempts == 0 then 2 else 1
  {
    var left := attempts;
    tries, sleeps, end, earlier := 0, 0, OutOfTries, w.made;
    while true
      invariant w.Valid() && w.Grows() && w.live == old(w.live)
      invariant w.faults >= old(w.faults) + tries && (tries > 0 ==> !w.interrupted)
      invariant tries + (if left == 0 then 0x1_0000_0000 else left as int) == Tries(attempts)
      invariant sleeps == tries - if attempts == 0 && tries > 0 then 1 else 0
      invariant old(w.interrupted) ==> tries == 0
      invariant old(w.stopped) ==> w.stopped && tries <= if attempts == 0 then 1 else 0
      decreases Tries(attempts) - tries
    {
      tries := tries + 1;
      r, earlier := TryOnce(w, port);
      if r.Some? {
        end := Reached;
        return;
      }
      var interrupted := w.IsInterrupted();
      if interrupted {
        end := Hindered;
        break;
      }
      if left != 0 {
        var slept := w.Sleep();
        if !slept {
          end := StoppedEarly;
          break;
        }
        sleeps := sleeps + 1;
      }
      left := if left == 0 then 0xFFFF_FFFF else left - 1;
      if left == 0 {
        break;
      }
    }
    r := None;
  }

  /** A further socket towards the tunnel; kept even if connecting fails, for the caller to close. */
  method ConnectNew(w: World, port: uint16) returns (ok: bool, r: Option<Sock>)
    requires w.Valid()
    modifies w`mem, w`next, w`live, w`known, w`made, w`faults, w`shut, w`interrupted, w`dialed
    ensures w.Valid() && w.Grows()
    ensures w.live == old(w.live) + One(r) && w.made == Then(old(w.made), r)
    ensures r.Some? ==> r.value !in old(w.known)
    ensures ok ==> r.Some? && w.dialed == old(w.dialed)[r.value := port]
    ensures w.Smooth() ==> ok
  {
    r := w.NewSocket();
    if r == None {
      return false, None;
    }
    ghost var end;
    ok, end := w.Connect(r.value, port);
  }

  method CloseIfSome(w: World, s: Option<Sock>)
    requires w.Valid() && One(s) <= w.live
    modifies w`mem, w`live, w`shut
    ensures w.Valid() && w.Grows()
    ensures w.live == old(w.live) - One(s)
  {
    if s.Some? {
      w.NetClose(s.value);
    }
  }

  /** The sockets that are left after connecting. */
  function Kept(ok: bool, st: Streams, leaked: Option<Sock>): set<Sock> {
    (if ok then Sockets(st) else {}) + One(leaked)
  }

  /** Every enabled stream has a socket of its own, and no other has one. */
  ghost predicate OnePerStream(p: Params, st: Streams) {
    && (st.video.Some? <==> p.video) && (st.audio.Some? <==> p.audio) && (st.control.Some? <==> p.control)
    && Distinct(st)
  }

  /** The stream that the device information is read from. */
  function First(p: Params, st: Streams): Option<Sock> {
    if p.video then st.video else if p.audio then st.audio else st.control
  }

  /** The device information comes over the first of the connections. */
  lemma FirstWasMadeFirst(p: Params, st: Streams, earlier: seq<Sock>)
    requires OnePerStream(p, st) && AnyStream(p)
    ensures |earlier| < |InOrder(earlier, st)| && First(p, st) == Some(InOrder(earlier, st)[|earlier|])
  {
  }

  predicate AnyStream(p: Params) {
    p.video || p.audio || p.control
  }

  class Server {
    const params: Params
    const tunnel: Tunnel
    var streams: Streams

    constructor (params: Params, tunnel: Tunnel)
      ensures this.params == params && this.tunnel == tunnel && streams == NO_STREAMS
    {
      this.params, this.tunnel, streams := params, tunnel, NO_STREAMS;
    }

    /** The device connects to us. */
    method AcceptStreams(w: World) returns (ok: bool, st: Streams)
      requires w.Valid() && tunnel.serverSocket.Some? && tunnel.serverSocket.value in w.live
      modifies w`mem, w`next, w`live, w`known, w`made, w`faults, w`shut, w`interrupted
      ensures w.made == InOrder(old(w.made), st)
      ensures w.Smooth() ==> ok
      ensures w.Valid() && w.Grows() && w.live == old(w.live) + Sockets(st)
      ensures Distinct(st) && Sockets(st) !! old(w.known) && Sockets(st) !! w.shut
      ensures ok ==> OnePerStream(params, st)
    {
      var server := tunnel.serverSocket.value;
      st := NO_STREAMS;
      if params.video {
        var s := w.Accept(server);
        st := st.(video := s);
        if s == None {
          return false, st;
        }
      }
      if params.audio {
        var s := w.Accept(server);
        st := st.(audio := s);
        if s == None {
          return false, st;
        }
      }
      if params.control {
        var s := w.Accept(server);
        st := st.(control := s);
        if s == None {
          return false, st;
        }
      }
      ok := true;
    }

    /** The port to connect to in forward mode. */
    function Port(): uint16
      reads tunnel
    {
      if params.tunnelPort != 0 then params.tunnelPort else tunnel.localPort
    }

    /** We connect to the device; the first socket serves the first enabled stream, and leaks if there is none. */
    method ConnectStreams(w: World)
      returns (ok: bool, st: Streams, ghost leaked: Option<Sock>, ghost earlier: seq<Sock>,
               ghost tries: nat, ghost sleeps: nat, ghost end: RetryEnd)
      requires w.Valid()
      modifies w
      ensures w.Valid() && w.Grows() && w.live == old(w.live) + Sockets(st) + One(leaked)
      ensures Distinct(st) && Sockets(st) !! old(w.known)
      ensures leaked.Some? ==> leaked.value !in old(w.known)
      ensures ok ==> OnePerStream(params, st)
      ensures ok ==> w.made == Then(InOrder(earlier, st), leaked)
      ensures tries <= 100 && (end == OutOfTries ==> tries == sleeps == 100)
      ensures ok ==> AllConnectedTo(w.dialed, Sockets(st) + One(leaked), Port())
      ensures w.Smooth() ==> ok
      ensures leaked.Some? <==> ok && !AnyStream(params)
    {
      st, leaked := NO_STREAMS, None;
      var port := params.tunnelPort;
      if port == 0 {
        port := tunnel.localPort;
      }
      var first;
      first, tries, sleeps, end, earlier := ConnectToServer(w, 100, port);
      if first == None {
        return false, st, None, earlier, tries, sleeps, end;
      }
      ok, st := ConnectAudio(w, first.value, port, earlier);
      if !ok {
        return;
      }
      ok, st := ConnectControl(w, first.value, port, st, earlier);
      if !ok {
        return;
      }
      leaked := if AnyStream(params) then None else first;
    }

    /** The first socket belongs to a stream, or it is still the last one made. */
    ghost predicate Claimed(st: Streams, first: Sock, earlier: seq<Sock>, made: seq<Sock>, claimed: bool) {
      && (first in Sockets(st) <==> claimed)
      && made == Then(InOrder(earlier, st), if claimed then None else Some(first))
    }

    /** Video gets the first socket, or else audio. */
    method ConnectAudio(w: World, first: Sock, port: uint16, ghost earlier: seq<Sock>) returns (ok: bool, st: Streams)
      requires w.Valid() && first in w.live && first in w.known && w.made == earlier + [first]
      requires ConnectedTo(w.dialed, first, port)
      modifies w
      ensures w.Valid() && w.Grows() && w.live == old(w.live) + Sockets(st)
      ensures Distinct(st) && Sockets(st) !! old(w.known) - {first}
      ensures st.control == None && (st.video.Some? <==> params.video)
      ensures if ok then st.audio.Some? <==> params.audio else params.video
      ensures first in Sockets(st) <==> params.video || params.audio
      ensures ok ==> Claimed(st, first, earlier, w.made, params.video || params.audio)
      ensures ok ==> AllConnectedTo(w.dialed, Sockets(st) + {first}, port)
      ensures w.Smooth() ==> ok
    {
      st := NO_STREAMS;
      if params.video {
        st := st.(video := Some(first));
      }
      if params.audio {
        if !params.video {
          st := st.(audio := Some(first));
        } else {
          var s;
          ok, s := ConnectNew(w, port);
          st := st.(audio := s);
          if !ok {
            return;
          }
        }
      }
      ok := true;
    }

    method ConnectControl(w: World, first: Sock, port: uint16, before: Streams, ghost earlier: seq<Sock>)
      returns (ok: bool, st: Streams)
      requires w.Valid() && first in w.live && Sockets(before) <= w.live && w.live <= w.known
      requires Distinct(before) && before.control == None
      requires (before.video.Some? <==> params.video) && (before.audio.Some? <==> params.audio)
      requires AllConnectedTo(w.dialed, Sockets(before) + {first}, port)
      requires Claimed(before, first, earlier, w.made, params.video || params.audio)
      modifies w
      ensures w.Valid() && w.Grows() && w.live == old(w.live) + Sockets(st)
      ensures Distinct(st) && st.video == before.video && st.audio == before.audio
      ensures One(st.control) !! old(w.known) - {first}
      ensures ok ==> (st.control.Some? <==> params.control)
      ensures !ok ==> first in Sockets(st)
      ensures ok ==> Claimed(st, first, earlier, w.made, AnyStream(params))
      ensures ok ==> AllConnectedTo(w.dialed, Sockets(st) + {first}, port)
      ensures w.Smooth() ==> ok
    {
      st := before;
      if params.control {
        if !params.video && !params.audio {
          st := st.(control := Some(first));
        } else {
          var s;
          ok, s := ConnectNew(w, port);
          st := st.(control := s);
          if !ok {
            return;
          }
        }
      }
      ok := true;
    }

    method OpenStreams(w: World)
      returns (ok: bool, st: Streams, ghost leaked: Option<Sock>, ghost earlier: seq<Sock>)
      requires w.Valid() && tunnel.enabled && tunnel.Valid(w.live)
      modifies w
      ensures w.Valid() && w.Grows() && w.live == old(w.live) + Sockets(st) + One(leaked)
      ensures Distinct(st) && (Sockets(st) + One(leaked)) !! old(w.known)
      ensures ok ==> OnePerStream(params, st) && w.made == Then(InOrder(earlier, st), leaked)
      ensures !tunnel.forward ==> earlier == old(w.made)
      ensures ok && tunnel.forward ==> AllConnectedTo(w.dialed, Sockets(st) + One(leaked), Port())
      ensures w.Smooth() ==> ok
      ensures leaked.Some? <==> ok && tunnel.forward && !AnyStream(params)
    {
      leaked, earlier := None, w.made;
      if !tunnel.forward {
        ok, st := AcceptStreams(w);
      } else {
        ghost var tries, sleeps, end;
        ok, st, leaked, earlier, tries, sleeps, end := ConnectStreams(w);
      }
    }

    /** device_read_info() on the first stream; without a stream the socket is NONE and reading fails. */
    method ReadInfo(w: World, st: Streams) returns (ok: bool, ghost end: CallEnd)
      requires w.Valid() && OnePerStream(params, st) && Sockets(st) <= w.live
      modifies w`mem, w`shut, w`interrupted, w`faults, w`heard
      ensures w.Valid() && w.Grows() && ok == end.Done()
      ensures ok ==> One(First(params, st)) <= w.heard
      ensures w.Smooth() && AnyStream(params) ==> ok
      ensures ok ==> First(params, st).Some? && !old(w.interrupted)
      ensures w.shut == old(w.shut) + if end.Struck? then One(First(params, st)) else {}
      ensures end.Struck? ==> w.interrupted
    {
      var first := First(params, st);
      if first == None {
        return false, Refused;
      }
      assert first.value in Sockets(st);
      ok, end := w.Receive(first.value);
    }

    /** Once connected: the tunnel is not needed any more. */
    method CloseTunnelAndRead(w: World, st: Streams) returns (ok: bool, ghost end: CallEnd)
      requires w.Valid() && tunnel.enabled && tunnel.Valid(w.live)
      requires OnePerStream(params, st) && Sockets(st) <= w.live && Sockets(st) !! tunnel.Owned()
      modifies tunnel`enabled, tunnel`ruleKept, w`mem, w`live, w`shut, w`interrupted, w`faults, w`heard
      ensures w.Valid() && w.Grows() && !tunnel.enabled && ok == end.Done()
      ensures ok ==> One(First(params, st)) <= w.heard
      ensures w.live == old(w.live) - old(tunnel.Owned())
      ensures w.shut == old(w.shut) + old(tunnel.Owned()) + if end.Struck? then One(First(params, st)) else {}
      ensures ok ==> AnyStream(params) && !old(w.interrupted)
      ensures w.Smooth() && AnyStream(params) ==> ok
      ensures end.Struck? ==> w.interrupted
    {
      var closed := tunnel.Close(w);
      ok, end := ReadInfo(w, st);
    }

    /**
      Every exit leaves the tunnel disabled. On success each enabled stream has its own socket, and all
      their handles are open, but for the first one's if an interrupt struck while it was read from. Every
      other handle made is closed exactly once, but for that of the socket that no stream claims.
     */
    method ConnectTo(w: World)
      returns (ok: bool, ghost connected: bool, ghost leaked: Option<Sock>, ghost read: CallEnd,
               ghost earlier: seq<Sock>)
      requires w.Valid() && tunnel.enabled && tunnel.Valid(w.live)
      modifies this`streams, tunnel`enabled, tunnel`ruleKept, w
      ensures w.Valid() && w.Grows() && !tunnel.enabled && tunnel.forward == old(tunnel.forward)
      ensures ok ==> connected && read.Done() && AnyStream(params) && One(First(params, streams)) <= w.heard
      ensures w.Smooth() ==> (ok <==> AnyStream(params))
      ensures ok ==> OnePerStream(params, streams) && Sockets(streams) !! old(w.known)
      ensures ok ==> w.made == InOrder(earlier, streams)
      ensures !tunnel.forward ==> earlier == old(w.made)
      ensures ok && tunnel.forward ==> AllConnectedTo(w.dialed, Sockets(streams), Port())
      ensures ok ==> forall s :: s in Sockets(streams) ==>
                       (s in w.shut <==> Some(s) == First(params, streams) && read.Struck?)
      ensures read.Struck? ==> w.interrupted
      ensures !ok ==> streams == old(streams)
      ensures w.live == old(w.live) - old(tunnel.Owned()) + Kept(ok, streams, leaked)
      ensures leaked.Some? <==> connected && tunnel.forward && !AnyStream(params)
      ensures ok ==> leaked == None
      ensures One(leaked) !! old(w.known)
      ensures NewHandlesClosed(old(w.mem), w.mem, Kept(ok, streams, leaked))
    {
      var st;
      ok, st, leaked, earlier := OpenStreams(w);
      connected, read := ok, Refused;
      if ok {
        ok, read := CloseTunnelAndRead(w, st);
      }
      if ok {
        streams := st;
      } else {
        Fail(w, st);
        assert w.live == old(w.live) - old(tunnel.Owned()) + One(leaked);
      }
      w.NewHandlesClosedOnce(Kept(ok, streams, leaked));
    }

    /** The `fail` label: closes what was made and leaves the tunnel disabled. */
    method Fail(w: World, st: Streams)
      requires w.Valid() && tunnel.Valid(w.live)
      requires Sockets(st) <= w.live && Distinct(st) && Sockets(st) !! tunnel.Owned()
      modifies tunnel`enabled, tunnel`ruleKept, w`mem, w`live, w`shut, w`faults
      ensures w.Valid() && w.Grows() && !tunnel.enabled && tunnel.forward == old(tunnel.forward)
      ensures w.live == old(w.live) - Sockets(st) - old(tunnel.Owned())
    {
      CloseIfSome(w, st.video);
      CloseIfSome(w, st.audio);
      CloseIfSome(w, st.control);
      if tunnel.enabled {
        var closed := tunnel.Close(w);
      }
    }
  }
}
