/**
  The heap wrappers of src/net.cpp and the raw handles behind them: wrap(), the atomic `closed` flag
  whose winner closes the handle, and free(). Freed wrappers stay in the map, marked not live, and
  addresses and handles are never reused.
 */
module SocketMemory {
  import opened Wrappers

  type Sock = int  // address of a wrapper
  type Raw = int   // raw handle of the operating system
  type Pid = int

  datatype Wrapper = Wrapper(raw: Raw, closed: bool, live: bool)

  datatype Memory = Memory(
    heap: map<Sock, Wrapper>,   // every wrapper ever allocated
    closes: map<Raw, int>)      // how often each raw handle ever created was closed

  predicate Live(m: Memory, s: Sock) {
    s in m.heap && m.heap[s].live
  }

  predicate Flagged(m: Memory, s: Sock) {
    s in m.heap && m.heap[s].closed
  }

  predicate Unused(m: Memory, s: Sock, raw: Raw) {
    s !in m.heap && raw !in m.closes
  }

  /** wrap(): on a failed malloc the raw handle is closed at once and there is no wrapper. */
  function Wrap(m: Memory, s: Sock, raw: Raw, wrapped: bool): Memory {
    if wrapped
    then Memory(m.heap[s := Wrapper(raw, false, true)], m.closes[raw := 0])
    else m.(closes := m.closes[raw := 1])
  }

  function SetFlag(m: Memory, s: Sock): Memory {
    if s in m.heap then m.(heap := m.heap[s := m.heap[s].(closed := true)]) else m
  }

  function CloseRaw(m: Memory, s: Sock): Memory {
    if s in m.heap && m.heap[s].raw in m.closes
    then var raw := m.heap[s].raw; m.(closes := m.closes[raw := m.closes[raw] + 1])
    else m
  }

  function Free(m: Memory, s: Sock): Memory {
    if s in m.heap then m.(heap := m.heap[s := m.heap[s].(live := false)]) else m
  }

  ghost predicate Owns(m: Memory, s: Sock, raw: Raw) {
    s in m.heap && m.heap[s].raw == raw
  }

  /** Each handle belongs to one wrapper, or was closed at once because there was no memory for one. */
  ghost predicate OwnerInv(m: Memory) {
    && (forall s :: s in m.heap ==> m.heap[s].raw in m.closes)
    && (forall s1, s2 :: s1 in m.heap && s2 in m.heap && m.heap[s1].raw == m.heap[s2].raw ==> s1 == s2)
    && (forall raw :: raw in m.closes ==> m.closes[raw] == 1 || exists s :: Owns(m, s, raw))
  }

  /** The flag of a wrapper counts the closes of its handle, except where a close is still due. */
  ghost predicate CountInv(m: Memory, due: Option<Sock>) {
    && (forall s :: s in m.heap && m.heap[s].raw in m.closes ==>
          m.closes[m.heap[s].raw] == if m.heap[s].closed && due != Some(s) then 1 else 0)
    && (due.Some? ==> Flagged(m, due.value) && Live(m, due.value))
    && (forall s :: s in m.heap && !m.heap[s].live ==> m.heap[s].closed)
  }

  ghost predicate MemoryInv(m: Memory, due: Option<Sock>) {
    OwnerInv(m) && CountInv(m, due)
  }

  lemma OwnerStep(m: Memory, m': Memory)
    requires OwnerInv(m)
    requires m'.heap.Keys == m.heap.Keys && m'.closes.Keys == m.closes.Keys
    requires forall s :: s in m.heap ==> m'.heap[s].raw == m.heap[s].raw
    requires forall raw :: raw in m.closes && m'.closes[raw] != m.closes[raw] ==> exists s :: Owns(m, s, raw)
    ensures OwnerInv(m')
  {
    forall raw | raw in m'.closes ensures m'.closes[raw] == 1 || exists s :: Owns(m', s, raw) {
      if s :| Owns(m, s, raw) {
        assert Owns(m', s, raw);
      }
    }
  }

  lemma WrapKeeps(m: Memory, due: Option<Sock>, s: Sock, raw: Raw, wrapped: bool)
    requires MemoryInv(m, due) && Unused(m, s, raw)
    ensures MemoryInv(Wrap(m, s, raw, wrapped), due)
  {
    var m' := Wrap(m, s, raw, wrapped);
    forall r | r in m'.closes ensures m'.closes[r] == 1 || exists x :: Owns(m', x, r) {
      if r == raw {
        assert wrapped ==> Owns(m', s, r);
      } else if x :| Owns(m, x, r) {
        assert Owns(m', x, r);
      }
    }
  }

  lemma SetFlagKeeps(m: Memory, s: Sock)
    requires MemoryInv(m, None) && Live(m, s)
    ensures MemoryInv(SetFlag(m, s), if Flagged(m, s) then None else Some(s))
  {
    OwnerStep(m, SetFlag(m, s));
  }

  lemma CloseRawKeeps(m: Memory, s: Sock)
    requires MemoryInv(m, Some(s))
    ensures MemoryInv(CloseRaw(m, s), None)
  {
    assert Owns(m, s, m.heap[s].raw);
    OwnerStep(m, CloseRaw(m, s));
  }

  lemma FreeKeeps(m: Memory, s: Sock)
    requires MemoryInv(m, None) && Flagged(m, s)
    ensures MemoryInv(Free(m, s), None)
  {
    OwnerStep(m, Free(m, s));
  }

  /** With no close due, a handle that no live wrapper holds has been closed exactly once. */
  lemma ClosedOnceUnlessLive(m: Memory, raw: Raw)
    requires MemoryInv(m, None) && raw in m.closes
    requires forall s :: Owns(m, s, raw) ==> !Live(m, s)
    ensures m.closes[raw] == 1
  {
    if s :| Owns(m, s, raw) {
      assert m.heap[s].closed;
    }
  }
}
