/**
  src/net.cpp and src/util/sc_intr.cpp in their own form: objects whose methods update fields. What
  each method does is one of the functions that the step system shows its critical sections to be.
 */
module NetIntr {
  import opened Wrappers
  import opened SocketMemory
  import opened InterruptProtocol

  /** The first of net_interrupt() and net_close() to come closes the raw handle. */
  function Shut(m: Memory, s: Sock): Memory {
    if Flagged(m, s) then m else CloseRaw(SetFlag(m, s), s)
  }

  lemma ShutKeeps(m: Memory, s: Sock)
    requires MemoryInv(m, None) && Live(m, s)
    ensures MemoryInv(Shut(m, s), None) && Live(Shut(m, s), s) && Flagged(Shut(m, s), s)
    ensures forall x :: x != s ==> Flagged(Shut(m, s), x) == Flagged(m, x)
  {
    if !Flagged(m, s) {
      SetFlagKeeps(m, s);
      CloseRawKeeps(SetFlag(m, s), s);
    }
  }

  class Net {
    var mem: Memory
    var terminated: set<Pid>

    constructor ()
      ensures mem == Memory(map[], map[]) && terminated == {} && MemoryInv(mem, None)
    {
      mem := Memory(map[], map[]);
      terminated := {};
    }

    /** wrap() on a new raw handle; `haveMemory` is the outcome of malloc. */
    method WrapRaw(s: Sock, raw: Raw, haveMemory: bool) returns (r: Option<Sock>)
      requires MemoryInv(mem, None) && Unused(mem, s, raw)
      modifies this`mem
      ensures MemoryInv(mem, None) && mem == Wrap(old(mem), s, raw, haveMemory)
      ensures r == if haveMemory then Some(s) else None
      ensures mem.closes[raw] == if haveMemory then 0 else 1
    {
      WrapKeeps(mem, None, s, raw, haveMemory);
      if !haveMemory {
        mem := mem.(closes := mem.closes[raw := 1]);
        return None;
      }
      mem := Memory(mem.heap[s := Wrapper(raw, false, true)], mem.closes[raw := 0]);
      r := Some(s);
    }

    method NetInterrupt(s: Sock)
      requires MemoryInv(mem, None) && Live(mem, s)
      modifies this`mem
      ensures MemoryInv(mem, None) && mem == Shut(old(mem), s)
      ensures Live(mem, s) && mem.closes[mem.heap[s].raw] == 1
    {
      SetFlagKeeps(mem, s);
      var wasClosed := mem.heap[s].closed;
      mem := mem.(heap := mem.heap[s := mem.heap[s].(closed := true)]);
      if !wasClosed {
        CloseRawKeeps(mem, s);
        var raw := mem.heap[s].raw;
        mem := mem.(closes := mem.closes[raw := mem.closes[raw] + 1]);
      } else {
        assert mem.heap == old(mem.heap);
      }
    }

    method NetClose(s: Sock)
      requires MemoryInv(mem, None) && Live(mem, s)
      modifies this`mem
      ensures MemoryInv(mem, None) && mem == Free(Shut(old(mem), s), s)
      ensures !Live(mem, s) && mem.closes[mem.heap[s].raw] == 1
    {
      NetInterrupt(s);
      FreeKeeps(mem, s);
      mem := mem.(heap := mem.heap[s := mem.heap[s].(live := false)]);
    }
  }

  class Intr {
    var socket: Option<Sock>
    var process: Option<Pid>
    var interrupted: bool

    function View(): Slots
      reads this
    {
      Slots(socket, process, interrupted)
    }

    /** At most one slot is set, none after an interrupt, and a published socket is not freed. */
    ghost predicate Valid(m: Memory)
      reads this
    {
      && (socket == None || process == None)
      && (interrupted ==> BothEmpty(View()))
      && (socket.Some? ==> Live(m, socket.value))
    }

    constructor ()
      ensures View() == Slots(None, None, false) && forall m :: Valid(m)
    {
      socket, process, interrupted := None, None, false;
    }

    /** `None` stands for SC_SOCKET_NONE. */
    method SetSocket(s: Option<Sock>, ghost m: Memory) returns (ok: bool)
      requires Valid(m) && process == None && (s.Some? ==> Live(m, s.value))
      modifies this
      ensures Valid(m) && ok == !old(interrupted)
      ensures View() == SetSlot(old(View()), if s.Some? then Publish(OnSocket(s.value)) else Clear(OnSocket(0)))
    {
      if !interrupted {
        socket := s;
      }
      ok := !interrupted;
    }

    method SetProcess(p: Option<Pid>, ghost m: Memory) returns (ok: bool)
      requires Valid(m) && socket == None
      modifies this
      ensures Valid(m) && ok == !old(interrupted)
      ensures View() == SetSlot(old(View()), if p.Some? then Publish(OnProcess(p.value)) else Clear(OnProcess(0)))
    {
      if !interrupted {
        process := p;
      }
      ok := !interrupted;
    }

    method IntrInterrupt(net: Net)
      requires MemoryInv(net.mem, None) && Valid(net.mem)
      modifies this, net
      ensures MemoryInv(net.mem, None) && Valid(net.mem) && View() == RAISED
      ensures net.mem == if old(socket).Some? then Shut(old(net.mem), old(socket).value) else old(net.mem)
      ensures net.terminated == old(net.terminated) + if old(process).Some? then {old(process).value} else {}
    {
      interrupted := true;
      if socket.Some? {
        net.NetInterrupt(socket.value);
        socket := None;
      }
      if process.Some? {
        net.terminated := net.terminated + {process.value};
        process := None;
      }
    }
  }
}
