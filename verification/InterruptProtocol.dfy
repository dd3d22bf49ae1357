/**
  The interruptible-socket protocol of src/util/sc_intr.cpp and src/net.cpp, in the variant where
  net_interrupt() closes the raw handle, as a small-step system.

  One worker thread publishes the socket or process it is about to block on, blocks, and clears the
  slot again; it also opens, interrupts and closes the sockets it holds. Any number of other threads
  call intr_interrupt(). Every lock, load, store, test-and-set, close and free is a step of its own, and so
  is every assert and every first read of a wrapper.
 */
module InterruptProtocol {
  import opened Wrappers
  import opened SocketMemory

  /** What a call can block on. */
  datatype Target = OnSocket(s: Sock) | OnProcess(p: Pid)

  /** One call of set_socket() or set_process(): with a target, or with the NONE value afterwards. */
  datatype SlotCall = Publish(t: Target) | Clear(t: Target)

  datatype WorkerPc =
    | WIdle
    | WAssert(c: SlotCall)               // the assert before the lock
    | WLock(c: SlotCall)
    | WLoad(c: SlotCall)                 // lock held from here ...
    | WStore(c: SlotCall)
    | WUnlock(c: SlotCall, ok: bool)     // ... to here
    | WEnter(t: Target)                  // about to read the wrapper and block
    | WBlocked(t: Target)
    | WUnwrap(s: Sock, free: bool)       // net_close (free) or net_interrupt (not free) by the worker
    | WTestAndSet(s: Sock, free: bool)
    | WCloseRaw(s: Sock, free: bool)
    | WFree(s: Sock)

  datatype InterrupterPc =
    | IIdle
    | IStoreFlag                         // lock held from here ...
    | IAssert
    | IReadSocket
    | IUnwrap(s: Sock)
    | ITestAndSet(s: Sock)
    | ICloseRaw(s: Sock)
    | IClearSocket(s: Sock)
    | IReadProcess
    | ITerminate(p: Pid)
    | IClearProcess(p: Pid)
    | IUnlock                            // ... to here

  datatype Owner = Worker | Interrupter(i: nat)

  /** The fields of sc_intr that the mutex protects. */
  datatype Slots = Slots(socket: Option<Sock>, process: Option<Pid>, interrupted: bool)

  datatype State = State(
    mem: Memory,
    slots: Slots,
    terminated: set<Pid>,
    mutex: Option<Owner>,
    worker: WorkerPc,
    others: seq<InterrupterPc>)

  datatype WorkerAction =
    | Go                                                  // the next step of the current call
    | NewSocket(s: Sock, raw: Raw, wrapped: bool)         // net_socket()
    | BeginCall(t: Target)                                // net_*_intr() or sc_pipe_read_all_intr()
    | BeginClose(s: Sock, free: bool)                     // net_close() or net_interrupt()
    | Return                                              // the blocking call comes back
    | ReturnSocket(s: Sock, raw: Raw, wrapped: bool)      // accept() comes back with a connection

  datatype Action = W(a: WorkerAction) | I(i: nat)

  // ----- steps

  ghost predicate Init(st: State) {
    && st.mem == Memory(map[], map[]) && st.slots == Slots(None, None, false) && st.terminated == {}
    && st.mutex == None && st.worker == WIdle
    && (forall i :: 0 <= i < |st.others| ==> st.others[i] == IIdle)
  }

  predicate Enabled(st: State, a: Action) {
    match a
    case I(i) => i < |st.others| && (st.others[i] == IIdle ==> st.mutex == None)
    case W(Go) => !st.worker.WIdle? && !st.worker.WBlocked? && (st.worker.WLock? ==> st.mutex == None)
    case W(NewSocket(s, raw, _)) => st.worker == WIdle && Unused(st.mem, s, raw)
    case W(BeginCall(t)) => st.worker == WIdle && (t.OnSocket? ==> Live(st.mem, t.s))  // a socket it still holds
    case W(BeginClose(s, _)) => st.worker == WIdle && Live(st.mem, s)
    case W(Return) => st.worker.WBlocked?
    case W(ReturnSocket(s, raw, _)) => st.worker.WBlocked? && st.worker.t.OnSocket? && Unused(st.mem, s, raw)
  }

  function Next(st: State, a: Action): State
    requires Enabled(st, a)
  {
    match a
    case I(i) => InterrupterNext(st, i)
    case W(w) => WorkerNext(st, w)
  }

  function WorkerNext(st: State, a: WorkerAction): State
    requires Enabled(st, W(a))
  {
    match a
    case Go => WorkerGo(st)
    case NewSocket(s, raw, wrapped) => st.(mem := Wrap(st.mem, s, raw, wrapped))
    case BeginCall(t) => st.(worker := WAssert(Publish(t)))
    case BeginClose(s, free) => st.(worker := WUnwrap(s, free))
    case Return => st.(worker := WAssert(Clear(st.worker.t)))
    case ReturnSocket(s, raw, wrapped) =>
      st.(mem := Wrap(st.mem, s, raw, wrapped), worker := WAssert(Clear(st.worker.t)))
  }

  function WorkerGo(st: State): State
    requires Enabled(st, W(Go))
  {
    match st.worker
    case WAssert(c) => st.(worker := WLock(c))
    case WLock(c) => st.(mutex := Some(Worker), worker := WLoad(c))
    case WLoad(c) => st.(worker := if st.slots.interrupted then WUnlock(c, false) else WStore(c))
    case WStore(c) => st.(slots := Stored(st.slots, c), worker := WUnlock(c, true))
    case WUnlock(c, ok) => st.(mutex := None, worker := if c.Publish? && ok then WEnter(c.t) else WIdle)
    case WEnter(t) => st.(worker := WBlocked(t))
    case WUnwrap(s, free) => st.(worker := WTestAndSet(s, free))
    case WTestAndSet(s, free) =>
      st.(mem := SetFlag(st.mem, s),
          worker := if !Flagged(st.mem, s) then WCloseRaw(s, free) else if free then WFree(s) else WIdle)
    case WCloseRaw(s, free) => st.(mem := CloseRaw(st.mem, s), worker := if free then WFree(s) else WIdle)
    case WFree(s) => st.(mem := Free(st.mem, s), worker := WIdle)
  }

  function Stored(slots: Slots, c: SlotCall): Slots {
    match c
    case Publish(OnSocket(s)) => slots.(socket := Some(s))
    case Publish(OnProcess(p)) => slots.(process := Some(p))
    case Clear(OnSocket(_)) => slots.(socket := None)
    case Clear(OnProcess(_)) => slots.(process := None)
  }

  function InterrupterNext(st: State, i: nat): State
    requires Enabled(st, I(i))
  {
    var slots := st.slots;
    match st.others[i]
    case IIdle => Move(st, i, IStoreFlag).(mutex := Some(Interrupter(i)))
    case IStoreFlag => Move(st, i, IAssert).(slots := slots.(interrupted := true))
    case IAssert => Move(st, i, IReadSocket)
    case IReadSocket => Move(st, i, if slots.socket.Some? then IUnwrap(slots.socket.value) else IReadProcess)
    case IUnwrap(s) => Move(st, i, ITestAndSet(s))
    case ITestAndSet(s) =>
      Move(st, i, if Flagged(st.mem, s) then IClearSocket(s) else ICloseRaw(s)).(mem := SetFlag(st.mem, s))
    case ICloseRaw(s) => Move(st, i, IClearSocket(s)).(mem := CloseRaw(st.mem, s))
    case IClearSocket(s) => Move(st, i, IReadProcess).(slots := slots.(socket := None))
    case IReadProcess => Move(st, i, if slots.process.Some? then ITerminate(slots.process.value) else IUnlock)
    case ITerminate(p) => Move(st, i, IClearProcess(p)).(terminated := st.terminated + {p})
    case IClearProcess(p) => Move(st, i, IUnlock).(slots := slots.(process := None))
    case IUnlock => Move(st, i, IIdle).(mutex := None)
  }

  function Move(st: State, i: nat, pc: InterrupterPc): State
    requires i < |st.others|
  {
    st.(others := st.others[i := pc])
  }

  // ----- the invariant

  /** The worker is between storing a target in the slot and having cleared it. */
  ghost predicate Engaged(pc: WorkerPc, t: Target) {
    || (pc.WUnlock? && pc.c == Publish(t) && pc.ok)
    || pc == WEnter(t) || pc == WBlocked(t)
    || ((pc.WAssert? || pc.WLock? || pc.WLoad? || pc.WStore?) && pc.c == Clear(t))
  }

  /** The worker has seen the flag down for a call it has not come back from. */
  ghost predicate Committed(pc: WorkerPc) {
    || (pc.WStore? && pc.c.Publish?)
    || (pc.WUnlock? && pc.c.Publish? && pc.ok)
    || pc.WEnter? || pc.WBlocked?
  }

  /** The worker holds this socket and has not yet freed it. */
  ghost predicate Uses(pc: WorkerPc, s: Sock) {
    || Engaged(pc, OnSocket(s))
    || ((pc.WAssert? || pc.WLock? || pc.WLoad? || pc.WStore?) && pc.c == Publish(OnSocket(s)))
    || ((pc.WUnwrap? || pc.WTestAndSet? || pc.WCloseRaw? || pc.WFree?) && pc.s == s)
  }

  ghost predicate MutexInv(st: State) {
    && (st.mutex == Some(Worker) <==> st.worker.WLoad? || st.worker.WStore? || st.worker.WUnlock?)
    && (forall i :: 0 <= i < |st.others| ==> (st.others[i] != IIdle <==> st.mutex == Some(Interrupter(i))))
    && (st.mutex.Some? && st.mutex.value.Interrupter? ==> st.mutex.value.i < |st.others|)
  }

  /** Where the interrupter that holds the lock stands; IIdle if none holds it. */
  function Inside(st: State): InterrupterPc {
    if st.mutex.Some? && st.mutex.value.Interrupter? && st.mutex.value.i < |st.others|
    then st.others[st.mutex.value.i] else IIdle
  }

  /** At most one slot is set, only while the worker is using it, and never after an interrupt. */
  ghost predicate SlotInv(st: State) {
    && (st.slots.socket == None || st.slots.process == None)
    && (st.slots.socket.Some? ==> Engaged(st.worker, OnSocket(st.slots.socket.value)))
    && (st.slots.process.Some? ==> Engaged(st.worker, OnProcess(st.slots.process.value)))
    && (st.worker.WStore? ==> !st.slots.interrupted)
    && (st.worker.WUnlock? && st.worker.ok ==> !st.slots.interrupted)
    && PointInv(st, Inside(st))
  }

  ghost predicate BothEmpty(slots: Slots) {
    slots.socket == None && slots.process == None
  }

  /** What the interrupter inside the critical section knows at each point. */
  ghost predicate PointInv(st: State, pc: InterrupterPc) {
    var slots := st.slots;
    match pc
    case IIdle => slots.interrupted ==> BothEmpty(slots)
    case IStoreFlag => slots.interrupted ==> BothEmpty(slots)
    case IAssert => slots.interrupted
    case IReadSocket => slots.interrupted
    case IUnwrap(s) => slots.interrupted && slots.socket == Some(s)
    case ITestAndSet(s) => slots.interrupted && slots.socket == Some(s)
    case ICloseRaw(s) => slots.interrupted && slots.socket == Some(s)
    case IClearSocket(s) => slots.interrupted && slots.socket == Some(s) && Flagged(st.mem, s)
    case IReadProcess => slots.interrupted && slots.socket == None
    case ITerminate(p) => slots.interrupted && slots.socket == None && slots.process == Some(p)
    case IClearProcess(p) =>
      slots.interrupted && slots.socket == None && slots.process == Some(p) && p in st.terminated
    case IUnlock => slots.interrupted && BothEmpty(slots)
  }

  /** No lost interrupt: a target in use is still published, or it has been closed or terminated. */
  ghost predicate EngagedInv(st: State) {
    && (forall s :: Engaged(st.worker, OnSocket(s)) ==>
          st.slots.socket == Some(s) || (st.slots.interrupted && Flagged(st.mem, s)))
    && (forall p :: Engaged(st.worker, OnProcess(p)) ==>
          st.slots.process == Some(p) || (st.slots.interrupted && p in st.terminated))
  }

  /** The wrapper whose flag was won by a thread that has not closed the raw handle yet. */
  function Due(st: State): Option<Sock> {
    if st.worker.WCloseRaw? then Some(st.worker.s)
    else if Inside(st).ICloseRaw? then Some(Inside(st).s) else None
  }

  /** Whatever the worker uses is live; only a closed socket is freed. */
  ghost predicate UseInv(st: State) {
    && (forall s :: Uses(st.worker, s) ==> Live(st.mem, s))
    && (st.worker.WFree? ==> Flagged(st.mem, st.worker.s))
    && (st.worker.WCloseRaw? ==> !Inside(st).ICloseRaw?)
  }

  /** Who is where, and with what. */
  ghost predicate Control(st: State) {
    MutexInv(st) && SlotInv(st) && EngagedInv(st) && UseInv(st)
  }

  ghost predicate Inv(st: State) {
    Control(st) && MemoryInv(st.mem, Due(st))
  }

  // ----- every step keeps it

  lemma InitEstablishesInv(st: State)
    requires Init(st)
    ensures Inv(st)
  {
  }

  lemma WorkerKeepsMutexInv(st: State, a: WorkerAction)
    requires MutexInv(st) && Enabled(st, W(a))
    ensures MutexInv(Next(st, W(a)))
  {
  }

  lemma InterrupterKeepsMutexInv(st: State, i: nat)
    requires MutexInv(st) && Enabled(st, I(i))
    ensures MutexInv(Next(st, I(i)))
  {
  }

  lemma WorkerLeavesInside(st: State, a: WorkerAction)
    requires MutexInv(st) && Enabled(st, W(a))
    ensures Inside(Next(st, W(a))) == Inside(st)
    ensures st.worker.WStore? || Next(st, W(a)).slots == st.slots
  {
  }

  lemma WorkerKeepsSlotInv(st: State, a: WorkerAction)
    requires Control(st) && Enabled(st, W(a))
    ensures SlotInv(Next(st, W(a)))
  {
    WorkerLeavesInside(st, a);
  }

  lemma InterrupterKeepsPointInv(st: State, i: nat)
    requires Inv(st) && Enabled(st, I(i))
    ensures PointInv(Next(st, I(i)), Inside(Next(st, I(i))))
  {
  }

  lemma InterrupterKeepsSlotInv(st: State, i: nat)
    requires Inv(st) && Enabled(st, I(i))
    ensures SlotInv(Next(st, I(i)))
  {
    InterrupterKeepsPointInv(st, i);
  }

  lemma WorkerKeepsFlags(st: State)
    requires Enabled(st, W(Go))
    ensures forall s :: Flagged(st.mem, s) ==> Flagged(Next(st, W(Go)).mem, s)
  {
  }

  lemma WorkerGoKeepsEngagedInv(st: State)
    requires Control(st) && Enabled(st, W(Go))
    ensures EngagedInv(Next(st, W(Go)))
  {
    WorkerLeavesInside(st, Go);
    WorkerKeepsFlags(st);
    var st' := Next(st, W(Go));
    if !st.worker.WStore? {
      assert st'.slots == st.slots && st'.terminated == st.terminated;
      assert forall t :: Engaged(st'.worker, t) ==> Engaged(st.worker, t);
    }
  }

  lemma WorkerKeepsEngagedInv(st: State, a: WorkerAction)
    requires Control(st) && Enabled(st, W(a))
    ensures EngagedInv(Next(st, W(a)))
  {
    WorkerLeavesInside(st, a);
    if a.Go? {
      WorkerGoKeepsEngagedInv(st);
    }
  }

  lemma InterrupterKeepsEngagedInv(st: State, i: nat)
    requires Control(st) && Enabled(st, I(i))
    ensures EngagedInv(Next(st, I(i)))
  {
  }

  lemma WorkerKeepsUseInv(st: State, a: WorkerAction)
    requires Inv(st) && Enabled(st, W(a))
    ensures UseInv(Next(st, W(a)))
  {
    WorkerLeavesInside(st, a);
    if a.Go? {
      WorkerGoKeepsUseInv(st);
    } else {
      var st' := Next(st, W(a));
      forall s | Uses(st'.worker, s) ensures Live(st'.mem, s) {
        assert Uses(st.worker, s) || a.BeginCall? || a.BeginClose?;
      }
    }
  }

  lemma WorkerGoKeepsUseInv(st: State)
    requires Inv(st) && Enabled(st, W(Go))
    ensures UseInv(Next(st, W(Go)))
  {
    WorkerLeavesInside(st, Go);
    var st' := Next(st, W(Go));
    forall s | Uses(st'.worker, s) ensures Live(st'.mem, s) {
      assert Uses(st.worker, s);
    }
  }

  lemma InterrupterKeepsUseInv(st: State, i: nat)
    requires Control(st) && Enabled(st, I(i))
    ensures UseInv(Next(st, I(i)))
  {
  }

  lemma WorkerKeepsMemoryInv(st: State, a: WorkerAction)
    requires Inv(st) && Enabled(st, W(a))
    ensures MemoryInv(Next(st, W(a)).mem, Due(Next(st, W(a))))
  {
    WorkerLeavesInside(st, a);
    match a
    case NewSocket(s, raw, wrapped) => WrapKeeps(st.mem, Due(st), s, raw, wrapped);
    case ReturnSocket(s, raw, wrapped) => WrapKeeps(st.mem, Due(st), s, raw, wrapped);
    case Go =>
      match st.worker {
        case WTestAndSet(s, _) => SetFlagKeeps(st.mem, s);
        case WCloseRaw(s, _) => CloseRawKeeps(st.mem, s);
        case WFree(s) => FreeKeeps(st.mem, s);
        case _ =>
      }
    case _ =>
  }

  lemma InterrupterKeepsMemoryInv(st: State, i: nat)
    requires Inv(st) && Enabled(st, I(i))
    ensures MemoryInv(Next(st, I(i)).mem, Due(Next(st, I(i))))
  {
    match st.others[i]
    case ITestAndSet(s) => SetFlagKeeps(st.mem, s);
    case ICloseRaw(s) => CloseRawKeeps(st.mem, s);
    case _ =>
  }

  lemma StepKeepsInv(st: State, a: Action)
    requires Inv(st) && Enabled(st, a)
    ensures Inv(Next(st, a))
  {
    match a
    case W(w) =>
      WorkerKeepsMutexInv(st, w);
      WorkerKeepsSlotInv(st, w);
      WorkerKeepsEngagedInv(st, w);
      WorkerKeepsUseInv(st, w);
      WorkerKeepsMemoryInv(st, w);
    case I(i) =>
      InterrupterKeepsMutexInv(st, i);
      InterrupterKeepsSlotInv(st, i);
      InterrupterKeepsEngagedInv(st, i);
      InterrupterKeepsUseInv(st, i);
      InterrupterKeepsMemoryInv(st, i);
  }

  // ----- all runs

  ghost predicate StepAt(states: seq<State>, actions: seq<Action>, k: nat)
    requires |states| == |actions| + 1 && k < |actions|
  {
    Enabled(states[k], actions[k]) && states[k + 1] == Next(states[k], actions[k])
  }

  /** A run: the states visited, one more than the actions taken, in any interleaving. */
  ghost predicate IsRun(states: seq<State>, actions: seq<Action>) {
    && |states| == |actions| + 1
    && Init(states[0])
    && (forall k :: 0 <= k < |actions| ==> StepAt(states, actions, k))
  }

  lemma {:induction false} RunKeepsInv(states: seq<State>, actions: seq<Action>, k: nat)
    requires IsRun(states, actions) && k < |states|
    ensures Inv(states[k])
    decreases k
  {
    if k == 0 {
      InitEstablishesInv(states[0]);
    } else {
      RunKeepsInv(states, actions, k - 1);
      assert StepAt(states, actions, k - 1);
      StepKeepsInv(states[k - 1], actions[k - 1]);
    }
  }

  /** What one call of intr_interrupt() makes of the slots. */
  const RAISED := Slots(None, None, true)

  /** The effect an interrupt must have on the target. */
  ghost predicate Woken(st: State, t: Target) {
    match t
    case OnSocket(s) =>
      s in st.mem.heap && st.mem.heap[s].raw in st.mem.closes && st.mem.closes[st.mem.heap[s].raw] == 1
    case OnProcess(p) => p in st.terminated
  }

  lemma StepKeepsRaised(st: State, a: Action)
    requires Control(st) && Enabled(st, a) && st.slots == RAISED
    ensures Next(st, a).slots == RAISED
  {
    if a.W? {
      WorkerLeavesInside(st, a.a);
    }
  }

  /** The slots stay as the first complete interrupt left them, whoever comes later. */
  lemma {:induction false} RaisedForever(states: seq<State>, actions: seq<Action>, i: nat, j: nat)
    requires IsRun(states, actions) && i <= j < |states| && states[i].slots == RAISED
    ensures states[j].slots == RAISED
    decreases j
  {
    if i < j {
      RaisedForever(states, actions, i, j - 1);
      RunKeepsInv(states, actions, j - 1);
      assert StepAt(states, actions, j - 1);
      StepKeepsRaised(states[j - 1], actions[j - 1]);
    }
  }

  lemma RaisedMeansWoken(st: State, t: Target)
    requires Inv(st) && st.slots == RAISED && Engaged(st.worker, t)
    ensures Woken(st, t)
  {
    match t
    case OnSocket(s) =>
      assert Uses(st.worker, s);
      assert !Inside(st).ICloseRaw?;
    case OnProcess(p) =>
  }

  /**
    No lost interrupt: in every state from the first complete interrupt on, also while further
    interrupters are at work, a target that the worker is still blocked on has been woken.
   */
  lemma NoLostInterrupt(states: seq<State>, actions: seq<Action>, i: nat, j: nat, t: Target)
    requires IsRun(states, actions) && i <= j < |states|
    requires states[i].slots == RAISED && Engaged(states[j].worker, t)
    ensures Woken(states[j], t)
  {
    RaisedForever(states, actions, i, j);
    RunKeepsInv(states, actions, j);
    RaisedMeansWoken(states[j], t);
  }

  /** Once the flag is up and the worker is not committed to a call, it never commits to one again. */
  lemma {:induction false} NoCallAfterInterrupt(states: seq<State>, actions: seq<Action>, i: nat, j: nat)
    requires IsRun(states, actions) && i <= j < |states|
    requires states[i].slots.interrupted && !Committed(states[i].worker)
    ensures states[j].slots.interrupted && !Committed(states[j].worker)
    decreases j
  {
    if i < j {
      NoCallAfterInterrupt(states, actions, i, j - 1);
      assert StepAt(states, actions, j - 1);
    }
  }

  /** A raw handle is closed at most once, and by the time its wrapper is freed exactly once. */
  lemma ExactlyOneClose(states: seq<State>, actions: seq<Action>, k: nat, raw: Raw)
    requires IsRun(states, actions) && k < |states|
    requires raw in states[k].mem.closes
    ensures 0 <= states[k].mem.closes[raw] <= 1
    ensures (forall s :: Owns(states[k].mem, s, raw) ==> !Live(states[k].mem, s)) ==> states[k].mem.closes[raw] == 1
  {
    RunKeepsInv(states, actions, k);
  }

  /** The wrapper that the next step of the worker reads, flags or frees. */
  function WorkerTouches(pc: WorkerPc): Option<Sock> {
    match pc
    case WEnter(OnSocket(s)) => Some(s)
    case WUnwrap(s, _) => Some(s)
    case WTestAndSet(s, _) => Some(s)
    case WFree(s) => Some(s)
    case _ => None
  }

  /** In no run is a freed wrapper touched by the worker, nor does an assert of set_socket() or set_process() fail. */
  lemma NoTouchAfterFree(states: seq<State>, actions: seq<Action>, k: nat)
    requires IsRun(states, actions) && k < |states|
    ensures var st := states[k];
      && (st.worker.WEnter? && st.worker.t.OnSocket? ==> Live(st.mem, st.worker.t.s))
      && (st.worker.WUnwrap? || st.worker.WTestAndSet? || st.worker.WFree? ==> Live(st.mem, st.worker.s))
      && (st.worker.WAssert? ==> if st.worker.c.t.OnSocket? then st.slots.process == None else st.slots.socket == None)
  {
    RunKeepsInv(states, actions, k);
    var st := states[k];
    if WorkerTouches(st.worker).Some? {
      assert Uses(st.worker, WorkerTouches(st.worker).value);
    }
  }

  /** Nor by an interrupter, nor does its assert fail. */
  lemma NoInterruptAfterFree(states: seq<State>, actions: seq<Action>, k: nat, i: nat)
    requires IsRun(states, actions) && k < |states| && i < |states[k].others|
    ensures var st := states[k];
      && (st.others[i].IUnwrap? || st.others[i].ITestAndSet? ==> Live(st.mem, st.others[i].s))
      && (st.others[i].IAssert? ==> st.slots.socket == None || st.slots.process == None)
  {
    RunKeepsInv(states, actions, k);
    var st := states[k];
    if st.others[i].IUnwrap? || st.others[i].ITestAndSet? {
      assert Inside(st) == st.others[i];
      assert Uses(st.worker, st.others[i].s);
    }
  }

  // ----- the critical sections act as if they were one step

  /** What one call of set_socket() or set_process() does to the slots when nobody interferes. */
  function SetSlot(slots: Slots, c: SlotCall): Slots {
    if slots.interrupted then slots else Stored(slots, c)
  }

  /** How far the worker has come with call c since it took the lock on slots s0. */
  ghost predicate WorkerProgress(st: State, c: SlotCall, s0: Slots) {
    match st.worker
    case WLoad(c1) => c1 == c && st.slots == s0
    case WStore(c1) => c1 == c && st.slots == s0 && !s0.interrupted
    case WUnlock(c1, ok) => c1 == c && ok == !s0.interrupted && st.slots == SetSlot(s0, c)
    case _ => false
  }

  /** How far the interrupter has come since it took the lock on slots s0. */
  ghost predicate InterrupterProgress(st: State, pc: InterrupterPc, s0: Slots) {
    match pc
    case IIdle => false
    case IStoreFlag => st.slots == s0
    case IAssert => st.slots == s0.(interrupted := true)
    case IReadSocket => st.slots == s0.(interrupted := true)
    case IUnwrap(s) => st.slots == s0.(interrupted := true) && s0.socket == Some(s)
    case ITestAndSet(s) => st.slots == s0.(interrupted := true) && s0.socket == Some(s)
    case ICloseRaw(s) => st.slots == s0.(interrupted := true) && s0.socket == Some(s)
    case IClearSocket(s) => st.slots == s0.(interrupted := true) && s0.socket == Some(s) && Flagged(st.mem, s)
    case IReadProcess => st.slots == Slots(None, s0.process, true) && SocketWoken(st, s0)
    case ITerminate(p) => st.slots == Slots(None, s0.process, true) && s0.process == Some(p) && SocketWoken(st, s0)
    case IClearProcess(p) =>
      st.slots == Slots(None, s0.process, true) && s0.process == Some(p) && p in st.terminated && SocketWoken(st, s0)
    case IUnlock => st.slots == RAISED && SocketWoken(st, s0) && ProcessWoken(st, s0)
  }

  ghost predicate SocketWoken(st: State, s0: Slots) {
    s0.socket.Some? ==> Flagged(st.mem, s0.socket.value)
  }

  ghost predicate ProcessWoken(st: State, s0: Slots) {
    s0.process.Some? ==> s0.process.value in st.terminated
  }

  lemma WorkerSectionStep(st: State, a: Action, c: SlotCall, s0: Slots)
    requires Inv(st) && Enabled(st, a) && st.mutex == Some(Worker) && WorkerProgress(st, c, s0)
    ensures var st' := Next(st, a);
      if st'.mutex == Some(Worker) then WorkerProgress(st', c, s0)
      else st'.slots == SetSlot(s0, c) && st'.worker == if c.Publish? && !s0.interrupted then WEnter(c.t) else WIdle
  {
  }

  lemma InterrupterSectionStep(st: State, a: Action, who: nat, s0: Slots)
    requires Inv(st) && Enabled(st, a) && st.mutex == Some(Interrupter(who))
    requires InterrupterProgress(st, Inside(st), s0)
    ensures var st' := Next(st, a);
      if st'.mutex == Some(Interrupter(who)) then InterrupterProgress(st', Inside(st'), s0)
      else st'.slots == RAISED && SocketWoken(st', s0) && ProcessWoken(st', s0)
  {
    match a
    case I(i) =>
      assert st.others[i] != IIdle && i == who;
    case W(w) =>
      WorkerLeavesInside(st, w);
      assert !st.worker.WStore?;
  }

  /** A thread holds the lock from state i up to state j, where it has just given it back. */
  ghost predicate HoldsLockUntil(states: seq<State>, who: Owner, i: nat, j: nat) {
    && i < j < |states|
    && (forall k :: i <= k < j ==> states[k].mutex == Some(who))
    && states[j].mutex != Some(who)
  }

  lemma {:induction false} WorkerSection(states: seq<State>, actions: seq<Action>, i: nat, k: nat, j: nat, c: SlotCall)
    requires IsRun(states, actions) && HoldsLockUntil(states, Worker, i, j)
    requires states[i].worker == WLoad(c) && i <= k < j
    ensures var st', s0 := states[k + 1], states[i].slots;
      if st'.mutex == Some(Worker) then WorkerProgress(st', c, s0)
      else st'.slots == SetSlot(s0, c) && st'.worker == if c.Publish? && !s0.interrupted then WEnter(c.t) else WIdle
    decreases k
  {
    if i < k {
      WorkerSection(states, actions, i, k - 1, j, c);
    }
    RunKeepsInv(states, actions, k);
    assert StepAt(states, actions, k);
    WorkerSectionStep(states[k], actions[k], c, states[i].slots);
  }

  /** Between lock and unlock of a set_*() call no other thread shows through. */
  lemma SetSlotIsAtomic(states: seq<State>, actions: seq<Action>, i: nat, j: nat, c: SlotCall)
    requires IsRun(states, actions) && HoldsLockUntil(states, Worker, i, j)
    requires states[i].worker == WLoad(c)
    ensures states[j].slots == SetSlot(states[i].slots, c)
    ensures states[j].worker == if c.Publish? && !states[i].slots.interrupted then WEnter(c.t) else WIdle
  {
    WorkerSection(states, actions, i, j - 1, j, c);
  }

  lemma {:induction false} InterrupterSection(states: seq<State>, actions: seq<Action>, i: nat, k: nat, j: nat,
                                              who: nat)
    requires IsRun(states, actions) && HoldsLockUntil(states, Interrupter(who), i, j)
    requires Inside(states[i]) == IStoreFlag && i <= k < j
    ensures var st', s0 := states[k + 1], states[i].slots;
      if st'.mutex == Some(Interrupter(who)) then InterrupterProgress(st', Inside(st'), s0)
      else st'.slots == RAISED && SocketWoken(st', s0) && ProcessWoken(st', s0)
    decreases k
  {
    if i < k {
      InterrupterSection(states, actions, i, k - 1, j, who);
    }
    RunKeepsInv(states, actions, k);
    assert StepAt(states, actions, k);
    InterrupterSectionStep(states[k], actions[k], who, states[i].slots);
  }

  /** Nor between lock and unlock of intr_interrupt(). */
  lemma InterruptIsAtomic(states: seq<State>, actions: seq<Action>, i: nat, j: nat, who: nat)
    requires IsRun(states, actions) && HoldsLockUntil(states, Interrupter(who), i, j)
    requires Inside(states[i]) == IStoreFlag
    ensures states[j].slots == RAISED
    ensures SocketWoken(states[j], states[i].slots) && ProcessWoken(states[j], states[i].slots)
  {
    InterrupterSection(states, actions, i, j - 1, j, who);
  }

  // ----- what a call lets happen to sockets

  /** The worker is in a net_*_intr() call on socket s, from its assert to the return of the last unlock. */
  ghost predicate InCall(pc: WorkerPc, s: Sock) {
    || ((pc.WAssert? || pc.WLock? || pc.WLoad? || pc.WStore? || pc.WUnlock?) && pc.c.t == OnSocket(s))
    || ((pc.WEnter? || pc.WBlocked?) && pc.t == OnSocket(s))
  }

  /** An interrupter is at work while s is published. */
  ghost predicate StruckAt(st: State, s: Sock) {
    st.slots.socket == Some(s) && st.slots.interrupted
  }

  lemma WorkerInCallKeepsFlags(st: State, a: WorkerAction, s: Sock)
    requires Enabled(st, W(a)) && InCall(st.worker, s)
    ensures forall x :: Flagged(Next(st, W(a)).mem, x) == Flagged(st.mem, x)
  {
  }

  lemma InterrupterFlagsPublished(st: State, i: nat, x: Sock)
    requires MutexInv(st) && SlotInv(st) && Enabled(st, I(i))
    requires Flagged(Next(st, I(i)).mem, x) != Flagged(st.mem, x)
    ensures StruckAt(st, x) && Engaged(st.worker, OnSocket(x))
  {
    assert st.others[i] == ITestAndSet(x);
    assert Inside(st) == st.others[i];
  }

  lemma CallStep(st: State, a: Action, s: Sock, x: Sock)
    requires Control(st) && Enabled(st, a) && InCall(st.worker, s)
    requires Flagged(Next(st, a).mem, x) != Flagged(st.mem, x)
    ensures x == s && StruckAt(st, s)
  {
    match a
    case W(w) => WorkerInCallKeepsFlags(st, w, s);
    case I(i) => InterrupterFlagsPublished(st, i, x);
  }

  lemma CallStepAt(states: seq<State>, actions: seq<Action>, k: nat, s: Sock, x: Sock)
    requires IsRun(states, actions) && k < |actions| && InCall(states[k].worker, s)
    requires Flagged(states[k + 1].mem, x) != Flagged(states[k].mem, x)
    ensures x == s && StruckAt(states[k], s)
  {
    RunKeepsInv(states, actions, k);
    assert StepAt(states, actions, k);
    CallStep(states[k], actions[k], s, x);
  }

  /**
    While the worker is in a call on s, a handle is closed only if it is that of s, and only by an interrupt
    that comes while s is published.
   */
  lemma {:induction false} CallTouchesOnlyItsSocket(states: seq<State>, actions: seq<Action>, i: nat, j: nat,
                                                    s: Sock, x: Sock)
    requires IsRun(states, actions) && i <= j < |states|
    requires forall k :: i <= k < j ==> InCall(states[k].worker, s)
    requires Flagged(states[j].mem, x) != Flagged(states[i].mem, x)
    ensures x == s && exists k :: i <= k < j && StruckAt(states[k], s)
    decreases j
  {
    if Flagged(states[j].mem, x) != Flagged(states[j - 1].mem, x) {
      CallStepAt(states, actions, j - 1, s, x);
    } else {
      CallTouchesOnlyItsSocket(states, actions, i, j - 1, s, x);
    }
  }

  // ----- progress

  /** The next step of a thread that is in a critical section. */
  function StepOf(who: Owner): Action {
    match who
    case Worker => W(Go)
    case Interrupter(i) => I(i)
  }

  /** At most so many of its own steps until a thread gives the lock back. */
  function StepsLeft(st: State, who: Owner): nat {
    match who
    case Worker => if st.worker.WLoad? then 3 else if st.worker.WStore? then 2 else if st.worker.WUnlock? then 1 else 0
    case Interrupter(i) => if i < |st.others| then InterrupterStepsLeft(st.others[i]) else 0
  }

  function InterrupterStepsLeft(pc: InterrupterPc): nat {
    match pc
    case IIdle => 0
    case IStoreFlag => 11
    case IAssert => 10
    case IReadSocket => 9
    case IUnwrap(_) => 8
    case ITestAndSet(_) => 7
    case ICloseRaw(_) => 6
    case IClearSocket(_) => 5
    case IReadProcess => 4
    case ITerminate(_) => 3
    case IClearProcess(_) => 2
    case IUnlock => 1
  }

  /** Whoever holds the lock is never stuck. */
  lemma HolderIsEnabled(states: seq<State>, actions: seq<Action>, k: nat, who: Owner)
    requires IsRun(states, actions) && k < |states| && states[k].mutex == Some(who)
    ensures Enabled(states[k], StepOf(who)) && 1 <= StepsLeft(states[k], who) <= 11
  {
    RunKeepsInv(states, actions, k);
  }

  lemma HolderStep(st: State, a: Action, who: Owner)
    requires MutexInv(st) && Enabled(st, a) && st.mutex == Some(who)
    ensures var st' := Next(st, a);
      if a == StepOf(who) then st'.mutex == None || StepsLeft(st', who) < StepsLeft(st, who)
      else st'.mutex == Some(who) && StepsLeft(st', who) == StepsLeft(st, who)
  {
  }

  function OwnSteps(actions: seq<Action>, who: Owner, i: nat, j: nat): nat
    requires i <= j <= |actions|
    decreases j
  {
    if i == j then 0 else OwnSteps(actions, who, i, j - 1) + if actions[j - 1] == StepOf(who) then 1 else 0
  }

  /** A thread that had the lock at i still has it at j and has used up its steps, or has given it back. */
  lemma {:induction false} HoldsOrGaveBack(states: seq<State>, actions: seq<Action>, who: Owner, i: nat, j: nat)
    requires IsRun(states, actions) && i <= j < |states| && states[i].mutex == Some(who)
    ensures || (exists k: nat :: k <= j && HoldsLockUntil(states, who, i, k))
            || ((forall k :: i <= k <= j ==> states[k].mutex == Some(who))
                && OwnSteps(actions, who, i, j) + StepsLeft(states[j], who) <= StepsLeft(states[i], who))
    decreases j
  {
    if i < j {
      HoldsOrGaveBack(states, actions, who, i, j - 1);
      if k: nat :| k <= j - 1 && HoldsLockUntil(states, who, i, k) {
        assert k <= j;
      } else {
        RunKeepsInv(states, actions, j - 1);
        assert StepAt(states, actions, j - 1);
        HolderStep(states[j - 1], actions[j - 1], who);
        if states[j].mutex != Some(who) {
          assert HoldsLockUntil(states, who, i, j);
        }
      }
    }
  }

  /** Eleven steps of its own are enough for any thread to give the lock back. */
  lemma GivesBack(states: seq<State>, actions: seq<Action>, who: Owner, i: nat, j: nat) returns (k: nat)
    requires IsRun(states, actions) && i <= j < |states| && states[i].mutex == Some(who)
    requires OwnSteps(actions, who, i, j) >= 11
    ensures k <= j && HoldsLockUntil(states, who, i, k)
  {
    HoldsOrGaveBack(states, actions, who, i, j);
    HolderIsEnabled(states, actions, i, who);
    if forall m :: i <= m <= j ==> states[m].mutex == Some(who) {
      HolderIsEnabled(states, actions, j, who);
    }
    k :| k <= j && HoldsLockUntil(states, who, i, k);
  }

  /** An interrupt that has begun is complete after eleven steps, and nothing the worker is blocked on sleeps on. */
  lemma InterruptCompletes(states: seq<State>, actions: seq<Action>, i: nat, j: nat, who: nat, t: Target)
    requires IsRun(states, actions) && i <= j < |states|
    requires states[i].mutex == Some(Interrupter(who)) && Inside(states[i]) == IStoreFlag
    requires OwnSteps(actions, Interrupter(who), i, j) >= 11
    ensures states[j].slots == RAISED && (Engaged(states[j].worker, t) ==> Woken(states[j], t))
  {
    var k := GivesBack(states, actions, Interrupter(who), i, j);
    InterruptIsAtomic(states, actions, i, k, who);
    RaisedForever(states, actions, k, j);
    if Engaged(states[j].worker, t) {
      NoLostInterrupt(states, actions, k, j, t);
    }
  }

  // ----- what net_close() and net_interrupt() of the worker do

  /** The worker is closing s (`free`) or interrupting it, and has come so far. */
  ghost predicate Closing(st: State, s: Sock, raw: Raw, free: bool) {
    && s in st.mem.heap && st.mem.heap[s].raw == raw
    && match st.worker
       case WUnwrap(x, f) => x == s && f == free
       case WTestAndSet(x, f) => x == s && f == free
       case WCloseRaw(x, f) => x == s && f == free && Flagged(st.mem, s)
       case WFree(x) => x == s && free && Flagged(st.mem, s)
       case _ => false
  }

  function CloseStepsLeft(pc: WorkerPc): nat {
    match pc
    case WUnwrap(_, _) => 4
    case WTestAndSet(_, _) => 3
    case WCloseRaw(_, _) => 2
    case WFree(_) => 1
    case _ => 0
  }

  /** The handle is closed, and the wrapper is freed or not. */
  ghost predicate Gone(m: Memory, s: Sock, raw: Raw, free: bool) {
    && s in m.heap && m.heap[s] == Wrapper(raw, true, !free)
    && raw in m.closes && m.closes[raw] == 1
  }

  lemma WorkerClosingStep(st: State, a: WorkerAction, s: Sock, raw: Raw, free: bool)
    requires Inv(st) && Enabled(st, W(a)) && Closing(st, s, raw, free)
    ensures a == Go
    ensures var st' := Next(st, W(a));
      if st'.worker == WIdle then s in st'.mem.heap && st'.mem.heap[s] == Wrapper(raw, true, !free)
      else Closing(st', s, raw, free) && CloseStepsLeft(st'.worker) < CloseStepsLeft(st.worker)
  {
    assert Uses(st.worker, s);
  }

  lemma ClosedWhenIdle(st: State, s: Sock)
    requires Inv(st) && st.worker == WIdle && Flagged(st.mem, s)
    ensures var raw := st.mem.heap[s].raw; raw in st.mem.closes && st.mem.closes[raw] == 1
  {
    assert !Inside(st).ICloseRaw?;
  }

  lemma InterrupterLeavesClosing(st: State, i: nat, s: Sock, raw: Raw, free: bool)
    requires Enabled(st, I(i)) && Closing(st, s, raw, free)
    ensures var st' := Next(st, I(i)); Closing(st', s, raw, free) && st'.worker == st.worker
  {
  }

  lemma ClosingStep(st: State, a: Action, s: Sock, raw: Raw, free: bool)
    requires Inv(st) && Enabled(st, a) && Closing(st, s, raw, free)
    ensures var st' := Next(st, a);
      if st'.worker == WIdle then a == W(Go) && Gone(st'.mem, s, raw, free)
      else
        && Closing(st', s, raw, free)
        && CloseStepsLeft(st'.worker) + (if a == W(Go) then 1 else 0) <= CloseStepsLeft(st.worker)
  {
    match a
    case W(w) =>
      WorkerClosingStep(st, w, s, raw, free);
      if Next(st, a).worker == WIdle {
        StepKeepsInv(st, a);
        ClosedWhenIdle(Next(st, a), s);
      }
    case I(i) => InterrupterLeavesClosing(st, i, s, raw, free);
  }

  /** The worker has been busy since step i. */
  ghost predicate BusySince(states: seq<State>, i: nat, k: nat) {
    i < k <= |states| && forall m :: i < m < k ==> states[m].worker != WIdle
  }

  lemma {:induction false} ClosingUntil(states: seq<State>, actions: seq<Action>, i: nat, k: nat, s: Sock, free: bool)
    requires IsRun(states, actions) && i < |actions| && actions[i] == W(BeginClose(s, free))
    requires BusySince(states, i, k) && k < |states|
    ensures s in states[i].mem.heap
    ensures var raw := states[i].mem.heap[s].raw;
      if states[k].worker == WIdle then Gone(states[k].mem, s, raw, free)
      else
        && Closing(states[k], s, raw, free)
        && OwnSteps(actions, Worker, i + 1, k) + CloseStepsLeft(states[k].worker) <= 4
    decreases k
  {
    assert StepAt(states, actions, i);
    var raw := states[i].mem.heap[s].raw;
    if i + 1 < k {
      ClosingUntil(states, actions, i, k - 1, s, free);
      RunKeepsInv(states, actions, k - 1);
      assert StepAt(states, actions, k - 1);
      ClosingStep(states[k - 1], actions[k - 1], s, raw, free);
    }
  }

  /**
    When the worker comes back from net_close() or net_interrupt(), the handle has been closed once, and
    the wrapper is freed by the one and not by the other.
   */
  lemma CloseTakesEffect(states: seq<State>, actions: seq<Action>, i: nat, j: nat, s: Sock, free: bool)
    requires IsRun(states, actions) && i < |actions| && actions[i] == W(BeginClose(s, free))
    requires BusySince(states, i, j) && j < |states| && states[j].worker == WIdle
    ensures s in states[i].mem.heap && s in states[j].mem.heap
    ensures var raw := states[i].mem.heap[s].raw;
      && states[j].mem.heap[s] == Wrapper(raw, true, !free)
      && raw in states[j].mem.closes && states[j].mem.closes[raw] == 1
  {
    ClosingUntil(states, actions, i, j, s, free);
  }

  /** Until then it is never stuck, and it comes back after at most four steps of its own. */
  lemma CloseReturns(states: seq<State>, actions: seq<Action>, i: nat, m: nat, s: Sock, free: bool) returns (j: nat)
    requires IsRun(states, actions) && i < m < |states| && actions[i] == W(BeginClose(s, free))
    ensures i < j <= m && BusySince(states, i, j)
    ensures states[j].worker == WIdle || (j == m && Enabled(states[m], W(Go)))
    ensures OwnSteps(actions, Worker, i + 1, m) >= 4 ==> states[j].worker == WIdle
  {
    j := i + 1;
    while j < m && states[j].worker != WIdle
      invariant i < j <= m && BusySince(states, i, j)
    {
      j := j + 1;
    }
    ClosingUntil(states, actions, i, j, s, free);
  }

  // ----- calls that block, and the sockets they bring

  /** The worker is on its way to blocking on t. */
  ghost predicate Approaching(pc: WorkerPc, t: Target) {
    || ((pc.WAssert? || pc.WLock? || pc.WLoad? || pc.WStore?) && pc.c == Publish(t))
    || (pc.WUnlock? && pc.c == Publish(t) && pc.ok)
    || pc == WEnter(t)
  }

  /** It found the flag up and turns back. */
  ghost predicate Refused(st: State, t: Target) {
    st.slots.interrupted && st.worker == WUnlock(Publish(t), false)
  }

  lemma ApproachStep(st: State, a: Action, t: Target)
    requires Enabled(st, a) && (Approaching(st.worker, t) || Refused(st, t))
    ensures var st' := Next(st, a);
      || Approaching(st'.worker, t) || Refused(st', t) || st'.worker == WBlocked(t)
      || (st'.worker == WIdle && st'.slots.interrupted)
  {
  }

  /** A call blocks on its target, unless an interrupt came before. */
  lemma {:induction false} CallBlocks(states: seq<State>, actions: seq<Action>, i: nat, j: nat, t: Target)
    requires IsRun(states, actions) && i < |actions| && actions[i] == W(BeginCall(t))
    requires BusySince(states, i, j) && j < |states|
    ensures || (exists k :: i < k <= j && states[k].worker == WBlocked(t))
            || Approaching(states[j].worker, t) || Refused(states[j], t)
            || (states[j].worker == WIdle && states[j].slots.interrupted)
    decreases j
  {
    if i + 1 < j {
      CallBlocks(states, actions, i, j - 1, t);
      assert StepAt(states, actions, j - 1);
      if Approaching(states[j - 1].worker, t) || Refused(states[j - 1], t) {
        ApproachStep(states[j - 1], actions[j - 1], t);
      }
    } else {
      assert StepAt(states, actions, i);
    }
  }

  /** Whoever is idle has nothing published. */
  lemma IdleHoldsNothing(states: seq<State>, actions: seq<Action>, k: nat)
    requires IsRun(states, actions) && k < |states| && states[k].worker == WIdle
    ensures BothEmpty(states[k].slots)
  {
    RunKeepsInv(states, actions, k);
  }

  /** A new socket, from net_socket() or accept(), is open; without memory its handle has been closed. */
  lemma SocketIsMade(states: seq<State>, actions: seq<Action>, k: nat, s: Sock, raw: Raw, wrapped: bool)
    requires IsRun(states, actions) && k < |actions|
    requires actions[k] == W(NewSocket(s, raw, wrapped)) || actions[k] == W(ReturnSocket(s, raw, wrapped))
    ensures raw !in states[k].mem.closes && raw in states[k + 1].mem.closes
    ensures if wrapped
            then s in states[k + 1].mem.heap && states[k + 1].mem.heap[s] == Wrapper(raw, false, true)
            else s !in states[k + 1].mem.heap
    ensures states[k + 1].mem.closes[raw] == if wrapped then 0 else 1
  {
    assert StepAt(states, actions, k);
  }

  // ----- a call that was struck may still come back with what it was for

  lemma Extend(states: seq<State>, actions: seq<Action>, a: Action) returns (longer: seq<State>, acts: seq<Action>)
    requires IsRun(states, actions) && Enabled(states[|actions|], a)
    ensures IsRun(longer, acts) && longer[|acts|] == Next(states[|actions|], a) && states <= longer
  {
    longer, acts := states + [Next(states[|actions|], a)], actions + [a];
    forall k | 0 <= k < |acts| ensures StepAt(longer, acts, k) {
      if k < |actions| {
        assert StepAt(states, actions, k);
      }
    }
  }

  /** Socket 1 with handle 7, one interrupter, nobody in a critical section but perhaps the worker. */
  function Scene(closed: bool, slots: Slots, mutex: Option<Owner>, worker: WorkerPc): State {
    State(Memory(map[1 := Wrapper(7, closed, true)], map[7 := if closed then 1 else 0]), slots, {}, mutex, worker,
          [IIdle])
  }

  const ONE := OnSocket(1)
  const FREE := Slots(None, None, false)
  const PUBLISHED := Slots(Some(1), None, false)

  /** The interrupter is in its critical section while the worker is blocked. */
  function Striking(closed: bool, pc: InterrupterPc): State {
    Scene(closed, PUBLISHED.(interrupted := true), Some(Interrupter(0)), WBlocked(ONE)).(others := [pc])
  }

  lemma RunUpToLock() returns (states: seq<State>, actions: seq<Action>)
    ensures IsRun(states, actions) && states[|actions|] == Scene(false, FREE, None, WLock(Publish(ONE)))
  {
    var start := State(Memory(map[], map[]), FREE, {}, None, WIdle, [IIdle]);
    states, actions := [start], [];
    states, actions := Extend(states, actions, W(NewSocket(1, 7, true)));
    states, actions := Extend(states, actions, W(BeginCall(ONE)));
    states, actions := Extend(states, actions, W(Go));
  }

  lemma RunUpToBlocked() returns (states: seq<State>, actions: seq<Action>)
    ensures IsRun(states, actions) && states[|actions|] == Scene(false, PUBLISHED, None, WBlocked(ONE))
  {
    states, actions := RunUpToLock();
    states, actions := Extend(states, actions, W(Go));
    states, actions := Extend(states, actions, W(Go));
    states, actions := Extend(states, actions, W(Go));
    assert states[|actions|] == Scene(false, PUBLISHED, Some(Worker), WUnlock(Publish(ONE), true));
    states, actions := Extend(states, actions, W(Go));
    states, actions := Extend(states, actions, W(Go));
  }

  lemma RunUpToUnwrap() returns (states: seq<State>, actions: seq<Action>)
    ensures IsRun(states, actions)
    ensures states[|actions|] == Striking(false, IUnwrap(1))
  {
    states, actions := RunUpToBlocked();
    states, actions := Extend(states, actions, I(0));
    states, actions := Extend(states, actions, I(0));
    states, actions := Extend(states, actions, I(0));
    states, actions := Extend(states, actions, I(0));
  }

  lemma RunUpToClosed() returns (states: seq<State>, actions: seq<Action>)
    ensures IsRun(states, actions)
    ensures states[|actions|] == Striking(true, IClearSocket(1))
  {
    states, actions := RunUpToUnwrap();
    states, actions := Extend(states, actions, I(0));
    states, actions := Extend(states, actions, I(0));
    states, actions := Extend(states, actions, I(0));
  }

  lemma RunUpToStruck() returns (states: seq<State>, actions: seq<Action>)
    ensures IsRun(states, actions) && states[|actions|] == Scene(true, RAISED, None, WBlocked(ONE))
  {
    states, actions := RunUpToClosed();
    states, actions := Extend(states, actions, I(0));
    states, actions := Extend(states, actions, I(0));
    states, actions := Extend(states, actions, I(0));
  }

  /**
    The worker's call has done its work when the interrupter closes the socket that is still published;
    the call comes back like any other, and the worker goes on with a socket whose handle is closed.
   */
  lemma CallComesBackClosed() returns (states: seq<State>, actions: seq<Action>, blocked: nat)
    ensures IsRun(states, actions) && blocked < |actions|
    ensures states[blocked] == Scene(true, RAISED, None, WBlocked(ONE))
    ensures states[|actions|] == Scene(true, RAISED, None, WIdle)
  {
    states, actions := RunUpToStruck();
    blocked := |actions|;
    states, actions := Extend(states, actions, W(Return));
    states, actions := Extend(states, actions, W(Go));
    states, actions := Extend(states, actions, W(Go));
    assert states[|actions|] == Scene(true, RAISED, Some(Worker), WLoad(Clear(ONE)));
    states, actions := Extend(states, actions, W(Go));
    states, actions := Extend(states, actions, W(Go));
  }

  // ----- a call that brings a socket, and one that waits for a process

  /** Besides socket 1 with handle 7 there is socket 2 with handle 8; nobody interrupts. */
  function TwoSockets(second: Wrapper, closes: int, slots: Slots, mutex: Option<Owner>, worker: WorkerPc): State {
    State(Memory(map[1 := Wrapper(7, false, true), 2 := second], map[7 := 0, 8 := closes]), slots, {}, mutex, worker,
          [IIdle])
  }

  const OPEN := Wrapper(8, false, true)

  lemma RunUpToAccepted() returns (states: seq<State>, actions: seq<Action>)
    ensures IsRun(states, actions)
    ensures states[|actions|] == TwoSockets(OPEN, 0, PUBLISHED, None, WAssert(Clear(ONE)))
  {
    states, actions := RunUpToBlocked();
    states, actions := Extend(states, actions, W(ReturnSocket(2, 8, true)));
  }

  lemma RunUpToCleared() returns (states: seq<State>, actions: seq<Action>)
    ensures IsRun(states, actions) && states[|actions|] == TwoSockets(OPEN, 0, FREE, None, WIdle)
  {
    states, actions := RunUpToAccepted();
    states, actions := Extend(states, actions, W(Go));
    states, actions := Extend(states, actions, W(Go));
    assert states[|actions|] == TwoSockets(OPEN, 0, PUBLISHED, Some(Worker), WLoad(Clear(ONE)));
    states, actions := Extend(states, actions, W(Go));
    states, actions := Extend(states, actions, W(Go));
    states, actions := Extend(states, actions, W(Go));
  }

  /** accept() brings a socket, which is interrupted, then closed; the listening socket stays as it was. */
  lemma AcceptedThenClosed() returns (states: seq<State>, actions: seq<Action>, interrupted: nat)
    ensures IsRun(states, actions) && interrupted <= |actions|
    ensures states[interrupted] == TwoSockets(Wrapper(8, true, true), 1, FREE, None, WIdle)
    ensures states[|actions|] == TwoSockets(Wrapper(8, true, false), 1, FREE, None, WIdle)
  {
    states, actions := RunUpToCleared();
    states, actions := Extend(states, actions, W(BeginClose(2, false)));
    states, actions := Extend(states, actions, W(Go));
    states, actions := Extend(states, actions, W(Go));
    states, actions := Extend(states, actions, W(Go));
    interrupted := |actions|;
    assert states[interrupted] == TwoSockets(Wrapper(8, true, true), 1, FREE, None, WIdle);
    states, actions := Extend(states, actions, W(BeginClose(2, true)));
    states, actions := Extend(states, actions, W(Go));
    states, actions := Extend(states, actions, W(Go));
    states, actions := Extend(states, actions, W(Go));
  }

  /** Without any socket: the worker waits for a process. */
  function Alone(slots: Slots, mutex: Option<Owner>, worker: WorkerPc): State {
    State(Memory(map[], map[]), slots, {}, mutex, worker, [])
  }

  lemma ProcessIsWaitedFor() returns (states: seq<State>, actions: seq<Action>)
    ensures IsRun(states, actions)
    ensures states[|actions|] == Alone(Slots(None, Some(5), false), None, WBlocked(OnProcess(5)))
  {
    var p := OnProcess(5);
    states, actions := [Alone(FREE, None, WIdle)], [];
    states, actions := Extend(states, actions, W(BeginCall(p)));
    states, actions := Extend(states, actions, W(Go));
    states, actions := Extend(states, actions, W(Go));
    assert states[|actions|] == Alone(FREE, Some(Worker), WLoad(Publish(p)));
    states, actions := Extend(states, actions, W(Go));
    states, actions := Extend(states, actions, W(Go));
    states, actions := Extend(states, actions, W(Go));
    states, actions := Extend(states, actions, W(Go));
  }
}
