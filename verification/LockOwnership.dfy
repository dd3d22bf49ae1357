/**
  The debug ownership tracking of sc_mutex in src/util/sc_thread.cpp, as a small-step system of any
  number of threads: `locker` is written next to the native mutex, not under the same atomic step, and
  it is stale while a thread waits on a condition.
 */
module LockOwnership {
  import opened Wrappers

  datatype Pc =
    | Idle
    | LockAssert      // lock(): assert(!held())
    | LockAcquire     //         native lock
    | LockStore       //         locker = self
    | Holding
    | UnlockAssert    // unlock(): assert(held())
    | UnlockStore     //           locker = none
    | UnlockRelease   //           native unlock
    | TimedAssert     // sc_cond_timedwait(): assert(held())
    | TimedBlocked    //           native mutex given up
    | TimedStore      //           native mutex back; locker = self
    | WaitAssert      // sc_cond_wait(): assert(held())
    | WaitBlocked     //           native mutex given up; nothing is stored when it is back

  datatype State = State(native: Option<nat>, locker: Option<nat>, threads: seq<Pc>)

  datatype Choice = Go | Lock | Unlock | TimedWait | Wait

  datatype Action = Action(i: nat, choice: Choice)

  predicate Held(st: State, i: nat) {
    st.locker == Some(i)
  }

  ghost predicate Init(st: State) {
    && st.native == None && st.locker == None
    && forall i :: 0 <= i < |st.threads| ==> st.threads[i] == Idle
  }

  predicate Enabled(st: State, a: Action) {
    && a.i < |st.threads|
    && match st.threads[a.i]
       case Idle => a.choice == Lock
       case Holding => a.choice == Unlock || a.choice == TimedWait || a.choice == Wait
       case LockAcquire => a.choice == Go && st.native == None
       case TimedBlocked => a.choice == Go && st.native == None   // signal, timeout or spurious wake-up
       case WaitBlocked => a.choice == Go && st.native == None
       case _ => a.choice == Go
  }

  function Next(st: State, a: Action): State
    requires Enabled(st, a)
  {
    var i := a.i;
    match st.threads[i]
    case Idle => Move(st, i, LockAssert)
    case LockAssert => Move(st, i, LockAcquire)
    case LockAcquire => Move(st, i, LockStore).(native := Some(i))
    case LockStore => Move(st, i, Holding).(locker := Some(i))
    case Holding =>
      var pc := if a.choice == Unlock then UnlockAssert else if a.choice == TimedWait then TimedAssert else WaitAssert;
      Move(st, i, pc)
    case UnlockAssert => Move(st, i, UnlockStore)
    case UnlockStore => Move(st, i, UnlockRelease).(locker := None)
    case UnlockRelease => Move(st, i, Idle).(native := None)
    case TimedAssert => Move(st, i, TimedBlocked).(native := None)
    case TimedBlocked => Move(st, i, TimedStore).(native := Some(i))
    case TimedStore => Move(st, i, Holding).(locker := Some(i))
    case WaitAssert => Move(st, i, WaitBlocked).(native := None)
    case WaitBlocked => Move(st, i, Holding).(native := Some(i))
  }

  function Move(st: State, i: nat, pc: Pc): State
    requires i < |st.threads|
  {
    st.(threads := st.threads[i := pc])
  }

  // ----- invariants

  predicate HasNative(pc: Pc) {
    pc.LockStore? || pc.Holding? || pc.UnlockAssert? || pc.UnlockStore? || pc.UnlockRelease? || pc.TimedAssert?
    || pc.TimedStore? || pc.WaitAssert?
  }

  /** Mutual exclusion; holds with every kind of wait. */
  ghost predicate NativeInv(st: State) {
    && (forall i :: 0 <= i < |st.threads| ==> (HasNative(st.threads[i]) <==> st.native == Some(i)))
    && (st.native.Some? ==> st.native.value < |st.threads|)
  }

  /** Between its own store and the next one, a thread that has the mutex is the locker. */
  predicate MustBeLocker(pc: Pc) {
    pc.Holding? || pc.UnlockAssert? || pc.UnlockStore? || pc.TimedAssert? || pc.WaitAssert?
  }

  /** A stale name can only be that of a thread in a timed wait. */
  predicate MayBeLocker(pc: Pc) {
    MustBeLocker(pc) || pc.TimedBlocked? || pc.TimedStore?
  }

  ghost predicate LockerInv(st: State) {
    forall i :: 0 <= i < |st.threads| ==>
      && (MustBeLocker(st.threads[i]) ==> Held(st, i))
      && (Held(st, i) ==> MayBeLocker(st.threads[i]))
      && !st.threads[i].WaitBlocked?
  }

  ghost predicate Inv(st: State) {
    NativeInv(st) && LockerInv(st)
  }

  lemma StepKeepsNativeInv(st: State, a: Action)
    requires NativeInv(st) && Enabled(st, a)
    ensures NativeInv(Next(st, a))
  {
  }

  lemma StepKeepsInv(st: State, a: Action)
    requires Inv(st) && Enabled(st, a) && st.threads[a.i] != WaitAssert
    ensures Inv(Next(st, a))
  {
    StepKeepsNativeInv(st, a);
  }

  // ----- all runs

  ghost predicate StepAt(states: seq<State>, actions: seq<Action>, k: nat)
    requires |states| == |actions| + 1 && k < |actions|
  {
    Enabled(states[k], actions[k]) && states[k + 1] == Next(states[k], actions[k])
  }

  ghost predicate IsRun(states: seq<State>, actions: seq<Action>) {
    && |states| == |actions| + 1
    && Init(states[0])
    && (forall k :: 0 <= k < |actions| ==> StepAt(states, actions, k))
  }

  /** No thread calls sc_cond_wait(). */
  ghost predicate TimedOnly(states: seq<State>) {
    forall k, i :: 0 <= k < |states| && 0 <= i < |states[k].threads| ==> states[k].threads[i] != WaitAssert
  }

  lemma {:induction false} RunKeepsInv(states: seq<State>, actions: seq<Action>, k: nat)
    requires IsRun(states, actions) && TimedOnly(states) && k < |states|
    ensures Inv(states[k])
    decreases k
  {
    if k > 0 {
      RunKeepsInv(states, actions, k - 1);
      assert StepAt(states, actions, k - 1);
      StepKeepsInv(states[k - 1], actions[k - 1]);
    }
  }

  predicate AssertSite(pc: Pc) {
    pc.LockAssert? || pc.UnlockAssert? || pc.TimedAssert? || pc.WaitAssert?
  }

  /** held() is the truth wherever it is asserted, so no assert fails, although `locker` is stale at times. */
  lemma HeldIsTruthful(states: seq<State>, actions: seq<Action>, k: nat, i: nat)
    requires IsRun(states, actions) && TimedOnly(states) && k < |states| && i < |states[k].threads|
    ensures var pc := states[k].threads[i];
      && (AssertSite(pc) ==> (Held(states[k], i) <==> states[k].native == Some(i)))
      && (pc.LockAssert? ==> !Held(states[k], i))
      && (pc.UnlockAssert? || pc.TimedAssert? ==> Held(states[k], i))
  {
    RunKeepsInv(states, actions, k);
  }

  /** At most one thread is between lock and unlock, whatever waits are used. */
  lemma {:induction false} MutualExclusion(states: seq<State>, actions: seq<Action>, k: nat, i: nat, j: nat)
    requires IsRun(states, actions) && k < |states| && i < |states[k].threads| && j < |states[k].threads|
    requires HasNative(states[k].threads[i]) && HasNative(states[k].threads[j])
    ensures i == j
  {
    RunKeepsNativeInv(states, actions, k);
  }

  lemma {:induction false} RunKeepsNativeInv(states: seq<State>, actions: seq<Action>, k: nat)
    requires IsRun(states, actions) && k < |states|
    ensures NativeInv(states[k])
    decreases k
  {
    if k > 0 {
      RunKeepsNativeInv(states, actions, k - 1);
      assert StepAt(states, actions, k - 1);
      StepKeepsNativeInv(states[k - 1], actions[k - 1]);
    }
  }

  /** What a thread does next, given the choice to unlock. */
  function NextChoice(pc: Pc): Choice {
    match pc
    case Idle => Lock
    case Holding => Unlock
    case _ => Go
  }

  /** If the mutex is taken, the thread that has it can go on; if it is free, every thread can. */
  lemma NoDeadlock(states: seq<State>, actions: seq<Action>, k: nat, i: nat)
    requires IsRun(states, actions) && k < |states| && i < |states[k].threads|
    ensures var st := states[k]; var t := if st.native.Some? then st.native.value else i;
      t < |st.threads| && Enabled(st, Action(t, NextChoice(st.threads[t])))
  {
    RunKeepsNativeInv(states, actions, k);
  }

  // ----- the untimed wait does not store the locker again

  /** Thread i gives the mutex up in sc_cond_wait() with action a - 1 and has it back in state b. */
  ghost predicate Waits(states: seq<State>, actions: seq<Action>, i: nat, a: nat, b: nat) {
    && |states| == |actions| + 1 && 0 < a < b < |states|
    && (forall k :: a - 1 <= k <= b ==> i < |states[k].threads|)
    && states[a - 1].threads[i] == WaitAssert && actions[a - 1] == Action(i, Go)
    && (forall k :: a <= k < b ==> states[k].threads[i] == WaitBlocked)
    && states[b].threads[i] == Holding
  }

  function PcOf(st: State, a: Action): Pc {
    if a.i < |st.threads| then st.threads[a.i] else Idle
  }

  /** Action number k gets the mutex by lock() or back from a timed wait, or gives it up by unlock(). */
  ghost predicate LocksOrUnlocks(states: seq<State>, actions: seq<Action>, k: nat)
    requires |states| == |actions| + 1 && k < |actions|
  {
    var pc := PcOf(states[k], actions[k]);
    pc.LockAcquire? || pc.TimedBlocked? || pc.UnlockRelease?
  }

  ghost predicate NobodyLocksOrUnlocks(states: seq<State>, actions: seq<Action>, a: nat, b: nat)
    requires |states| == |actions| + 1 && b < |states|
  {
    forall k :: a <= k < b ==> !LocksOrUnlocks(states, actions, k)
  }

  lemma NobodyStep(states: seq<State>, actions: seq<Action>, a: nat, k: nat)
    requires |states| == |actions| + 1 && a <= k < |actions|
    ensures NobodyLocksOrUnlocks(states, actions, a, k + 1) <==>
            NobodyLocksOrUnlocks(states, actions, a, k) && !LocksOrUnlocks(states, actions, k)
  {
  }

  lemma StepOfRun(states: seq<State>, actions: seq<Action>, k: nat)
    requires IsRun(states, actions) && k < |actions|
    ensures NativeInv(states[k]) && Enabled(states[k], actions[k]) && states[k + 1] == Next(states[k], actions[k])
  {
    assert StepAt(states, actions, k);
    RunKeepsNativeInv(states, actions, k);
  }

  /** Whether `locker` is still i, given where the thread stands that has the mutex. */
  ghost predicate Touched(st: State, i: nat, quiet: bool) {
    if st.native == None then Held(st, i) <==> quiet
    else
      st.native.value < |st.threads| && st.native.value != i &&
      match st.threads[st.native.value]
      case LockStore => !quiet
      case TimedStore => !quiet
      case UnlockRelease => !Held(st, i)
      case _ => Held(st, i) <==> quiet
  }

  lemma TouchedStep(st: State, a: Action, i: nat, quiet: bool)
    requires NativeInv(st) && Enabled(st, a) && Touched(st, i, quiet)
    requires a.i != i && i < |st.threads| && st.threads[i] == WaitBlocked
    ensures var pc := st.threads[a.i];
      Touched(Next(st, a), i, quiet && !(pc.LockAcquire? || pc.TimedBlocked? || pc.UnlockRelease?))
  {
    StepKeepsNativeInv(st, a);
  }

  lemma StillWaiting(st: State, a: Action, i: nat)
    requires Enabled(st, a) && i < |st.threads| && st.threads[i] == WaitBlocked
    ensures Next(st, a).threads[i] == if a.i == i then Holding else WaitBlocked
  {
  }

  lemma {:induction false} TouchedDuringWait(states: seq<State>, actions: seq<Action>, i: nat, a: nat, b: nat, k: nat)
    requires IsRun(states, actions) && Waits(states, actions, i, a, b) && Held(states[a - 1], i) && a <= k < b
    ensures Touched(states[k], i, NobodyLocksOrUnlocks(states, actions, a, k))
    decreases k
  {
    StepOfRun(states, actions, k - 1);
    if a < k {
      TouchedDuringWait(states, actions, i, a, b, k - 1);
      assert states[k].threads[i] == WaitBlocked == states[k - 1].threads[i];
      StillWaiting(states[k - 1], actions[k - 1], i);
      TouchedStep(states[k - 1], actions[k - 1], i, NobodyLocksOrUnlocks(states, actions, a, k - 1));
      NobodyStep(states, actions, a, k - 1);
    } else {
      assert NobodyLocksOrUnlocks(states, actions, a, a);
    }
  }

  lemma ComesBack(st: State, a: Action, i: nat, quiet: bool)
    requires Enabled(st, a) && a.i == i && st.threads[i] == WaitBlocked && Touched(st, i, quiet)
    ensures Held(Next(st, a), i) <==> quiet
  {
  }

  /**
    When sc_cond_wait() comes back, held() is right if and only if meanwhile no other thread took the
    mutex by lock(), got it back from a timed wait, or gave it up by unlock(); a thread that came from
    sc_cond_wait() itself and went straight back to waiting does no harm.
   */
  lemma HeldAfterWaitIff(states: seq<State>, actions: seq<Action>, i: nat, a: nat, b: nat)
    requires IsRun(states, actions) && Waits(states, actions, i, a, b) && Held(states[a - 1], i)
    ensures Held(states[b], i) <==> NobodyLocksOrUnlocks(states, actions, a, b)
  {
    TouchedDuringWait(states, actions, i, a, b, b - 1);
    StepOfRun(states, actions, b - 1);
    StillWaiting(states[b - 1], actions[b - 1], i);
    NobodyStep(states, actions, a, b - 1);
    ComesBack(states[b - 1], actions[b - 1], i, NobodyLocksOrUnlocks(states, actions, a, b - 1));
  }

  /** From state b to state d thread i has the mutex and has not given it up; in d it is at the assert of unlock(). */
  ghost predicate KeepsUntilUnlock(states: seq<State>, i: nat, b: nat, d: nat) {
    && b <= d < |states|
    && (forall k :: b <= k <= d ==> i < |states[k].threads|)
    && (forall k :: b <= k <= d ==> states[k].threads[i] == Holding || states[k].threads[i] == UnlockAssert)
    && states[d].threads[i] == UnlockAssert
  }

  lemma {:induction false} LockerStays(states: seq<State>, actions: seq<Action>, i: nat, b: nat, d: nat, k: nat)
    requires IsRun(states, actions) && KeepsUntilUnlock(states, i, b, d) && b <= k <= d
    ensures states[k].locker == states[b].locker
    decreases k
  {
    if b < k {
      LockerStays(states, actions, i, b, d, k - 1);
      StepOfRun(states, actions, k - 1);
    }
  }

  /** However much later the waiter unlocks, the assert fails if and only if there was such a thread. */
  lemma UnlockAfterWaitFailsIff(states: seq<State>, actions: seq<Action>, i: nat, a: nat, b: nat, d: nat)
    requires IsRun(states, actions) && Waits(states, actions, i, a, b) && Held(states[a - 1], i)
    requires KeepsUntilUnlock(states, i, b, d)
    ensures states[d].threads[i] == UnlockAssert
    ensures Held(states[d], i) <==> NobodyLocksOrUnlocks(states, actions, a, b)
  {
    HeldAfterWaitIff(states, actions, i, a, b);
    LockerStays(states, actions, i, b, d, d);
  }

  lemma Extend(states: seq<State>, actions: seq<Action>, a: Action) returns (longer: seq<State>, acts: seq<Action>)
    requires IsRun(states, actions) && Enabled(states[|actions|], a)
    ensures IsRun(longer, acts)
    ensures longer[|acts|] == Next(states[|actions|], a) && longer[0] == states[0]
  {
    longer, acts := states + [Next(states[|actions|], a)], actions + [a];
    forall k | 0 <= k < |acts| ensures StepAt(longer, acts, k) {
      if k < |actions| {
        assert StepAt(states, actions, k);
      }
    }
  }

  lemma RunUpToWait() returns (states: seq<State>, actions: seq<Action>)
    ensures IsRun(states, actions) && states[0].threads == [Idle, Idle]
    ensures states[|actions|] == State(None, Some(0), [WaitBlocked, Idle])
  {
    states, actions := [State(None, None, [Idle, Idle])], [];
    states, actions := Extend(states, actions, Action(0, Lock));
    states, actions := Extend(states, actions, Action(0, Go));
    states, actions := Extend(states, actions, Action(0, Go));
    states, actions := Extend(states, actions, Action(0, Go));
    states, actions := Extend(states, actions, Action(0, Wait));
    states, actions := Extend(states, actions, Action(0, Go));
    assert states[|actions|].threads == [WaitBlocked, Idle];
  }

  lemma RunUpToWake() returns (states: seq<State>, actions: seq<Action>)
    ensures IsRun(states, actions) && states[0].threads == [Idle, Idle]
    ensures states[|actions|] == State(None, None, [WaitBlocked, Idle])
  {
    states, actions := RunUpToWait();
    states, actions := Extend(states, actions, Action(1, Lock));
    states, actions := Extend(states, actions, Action(1, Go));
    states, actions := Extend(states, actions, Action(1, Go));
    states, actions := Extend(states, actions, Action(1, Go));
    states, actions := Extend(states, actions, Action(1, Unlock));
    states, actions := Extend(states, actions, Action(1, Go));
    states, actions := Extend(states, actions, Action(1, Go));
    states, actions := Extend(states, actions, Action(1, Go));
    assert states[|actions|].threads == [WaitBlocked, Idle];
  }

  /** Thread 0 waits, thread 1 locks and unlocks as it must to change what is waited for, thread 0 unlocks. */
  lemma WaitMakesAssertFail() returns (states: seq<State>, actions: seq<Action>)
    ensures IsRun(states, actions) && states[0].threads == [Idle, Idle]
    ensures states[|actions|].threads == [UnlockAssert, Idle] && !Held(states[|actions|], 0)
  {
    states, actions := RunUpToWake();
    states, actions := Extend(states, actions, Action(0, Go));
    states, actions := Extend(states, actions, Action(0, Unlock));
  }
}
