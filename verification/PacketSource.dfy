/**
  sc_packet_source of src/codec/packet_source.cpp: the fan-out to sinks. Sinks are open: any open()
  or push() may fail. What happens is recorded as a log of calls.
 */
module PacketSource {
  import opened Wrappers
  import opened Framing
  import opened Environment

  datatype Call = Open(ok: bool) | Push(p: Packet, accepted: bool) | Close | Disable

  datatype Event = Event(sink: nat, call: Call)

  // ----- the logs of the loops

  function OpenLog(n: nat): seq<Event> {
    if n == 0 then [] else OpenLog(n - 1) + [Event(n - 1, Open(true))]
  }

  function PushLog(n: nat, p: Packet): seq<Event> {
    if n == 0 then [] else PushLog(n - 1, p) + [Event(n - 1, Push(p, true))]
  }

  function DisableLog(n: nat): seq<Event> {
    if n == 0 then [] else DisableLog(n - 1) + [Event(n - 1, Disable)]
  }

  /** The last opened is closed first. */
  function CloseLog(n: nat): seq<Event> {
    if n == 0 then [] else [Event(n - 1, Close)] + CloseLog(n - 1)
  }

  function OpenFailLog(k: nat): seq<Event> {
    OpenLog(k) + [Event(k, Open(false))] + CloseLog(k)
  }

  function PushFailLog(k: nat, p: Packet): seq<Event> {
    PushLog(k, p) + [Event(k, Push(p, false))]
  }

  const MAX_SINKS := 2

  class Source {
    var sinkCount: nat
    var log: seq<Event>

    constructor ()
      ensures sinkCount == 0 && log == []
    {
      sinkCount, log := 0, [];
    }

    method AddSink()
      requires sinkCount < MAX_SINKS
      modifies this`sinkCount
      ensures sinkCount == old(sinkCount) + 1 <= 2
    {
      sinkCount := sinkCount + 1;
    }

    method OpenSinks(env: Env) returns (ok: bool, ghost failed: nat)
      modifies this`log, env
      ensures ok ==> log == old(log) + OpenLog(sinkCount) && env.faults == old(env.faults)
      ensures !ok ==> failed < sinkCount && log == old(log) + OpenFailLog(failed) && env.faults > old(env.faults)
    {
      failed := 0;
      var i := 0;
      while i < sinkCount
        invariant i <= sinkCount && log == old(log) + OpenLog(i) && env.faults == old(env.faults)
      {
        ok := env.Try();
        log := log + [Event(i, Open(ok))];
        if !ok {
          CloseFirsts(i);
          return false, i;
        }
        i := i + 1;
      }
      ok := true;
    }

    method PushPacket(p: Packet, env: Env) returns (ok: bool, ghost failed: nat)
      requires sinkCount > 0
      modifies this`log, env
      ensures ok ==> log == old(log) + PushLog(sinkCount, p) && env.faults == old(env.faults)
      ensures !ok ==> failed < sinkCount && log == old(log) + PushFailLog(failed, p) && env.faults > old(env.faults)
    {
      failed := 0;
      var i := 0;
      while i < sinkCount
        invariant i <= sinkCount && log == old(log) + PushLog(i, p) && env.faults == old(env.faults)
      {
        ok := env.Try();
        log := log + [Event(i, Push(p, ok))];
        if !ok {
          return false, i;
        }
        i := i + 1;
      }
      ok := true;
    }

    method CloseSinks()
      requires sinkCount > 0
      modifies this`log
      ensures log == old(log) + CloseLog(sinkCount)
    {
      CloseFirsts(sinkCount);
    }

    method DisableSinks()
      requires sinkCount > 0
      modifies this`log
      ensures log == old(log) + DisableLog(sinkCount)
    {
      for i := 0 to sinkCount
        invariant log == old(log) + DisableLog(i)
      {
        log := log + [Event(i, Disable)];
      }
    }

    method CloseFirsts(count: nat)
      modifies this`log
      ensures log == old(log) + CloseLog(count)
    {
      var left: nat := count;
      while left > 0
        invariant left <= count
        invariant log + CloseLog(left) == old(log) + CloseLog(count)
      {
        left := left - 1;
        log := log + [Event(left, Close)];
        assert CloseLog(left + 1) == [Event(left, Close)] + CloseLog(left);
      }
    }
  }

  // ----- one run of the demuxer, as the sinks see it

  datatype Outcome =
    | Untouched
    | Disabled
    | OpenFailed(k: nat)
    | Streamed(pushed: seq<Packet>, broken: Option<(nat, Packet)>)  // the sink that refused a packet, if any

  ghost predicate Possible(n: nat, o: Outcome) {
    match o
    case OpenFailed(k) => k < n
    case Streamed(_, Some((k, _))) => k < n
    case _ => true
  }

  function PushesLog(n: nat, ps: seq<Packet>): seq<Event> {
    if ps == [] then [] else PushesLog(n, ps[..|ps| - 1]) + PushLog(n, ps[|ps| - 1])
  }

  function RunLog(n: nat, o: Outcome): seq<Event> {
    match o
    case Untouched => []
    case Disabled => DisableLog(n)
    case OpenFailed(k) => OpenFailLog(k)
    case Streamed(ps, broken) => OpenLog(n) + PushesLog(n, ps) + BrokenLog(broken) + CloseLog(n)
  }

  function BrokenLog(broken: Option<(nat, Packet)>): seq<Event> {
    match broken
    case None => []
    case Some((k, p)) => PushFailLog(k, p)
  }

  lemma Assoc(a: seq<Event>, b: seq<Event>, c: seq<Event>, d: seq<Event>, e: seq<Event>)
    ensures a + b + c + d + e == a + (b + c + d + e)
  {
  }

  lemma PushesLogSnoc(n: nat, ps: seq<Packet>, p: Packet)
    ensures PushesLog(n, ps + [p]) == PushesLog(n, ps) + PushLog(n, p)
  {
    assert (ps + [p])[..|ps|] == ps;
  }

  /** The calls that sink i saw. */
  function Trace(log: seq<Event>, i: nat): seq<Call> {
    if log == [] then []
    else (if log[0].sink == i then [log[0].call] else []) + Trace(log[1..], i)
  }

  lemma {:induction false} TraceAppend(a: seq<Event>, b: seq<Event>, i: nat)
    ensures Trace(a + b, i) == Trace(a, i) + Trace(b, i)
    decreases |a|
  {
    if a == [] {
      assert a + b == b;
    } else {
      assert (a + b)[0] == a[0] && (a + b)[1..] == a[1..] + b;
      TraceAppend(a[1..], b, i);
      var first := if a[0].sink == i then [a[0].call] else [];
      assert Trace(a + b, i) == first + Trace(a[1..] + b, i);
      assert first + (Trace(a[1..], i) + Trace(b, i)) == first + Trace(a[1..], i) + Trace(b, i);
    }
  }

  lemma TraceAppend3(a: seq<Event>, b: seq<Event>, c: seq<Event>, i: nat)
    ensures Trace(a + b + c, i) == Trace(a, i) + Trace(b, i) + Trace(c, i)
  {
    TraceAppend(a + b, c, i);
    TraceAppend(a, b, i);
  }

  lemma TraceSnoc(log: seq<Event>, e: Event, i: nat)
    ensures Trace(log + [e], i) == Trace(log, i) + if e.sink == i then [e.call] else []
  {
    TraceAppend(log, [e], i);
    assert [e][1..] == [];
  }

  /** What sink i sees of a loop over the first m sinks: one call if it is among them. */
  lemma {:induction false} TraceLoops(m: nat, p: Packet, i: nat)
    ensures Trace(OpenLog(m), i) == if i < m then [Open(true)] else []
    ensures Trace(PushLog(m, p), i) == if i < m then [Push(p, true)] else []
    ensures Trace(DisableLog(m), i) == if i < m then [Disable] else []
    decreases m
  {
    if m > 0 {
      TraceLoops(m - 1, p, i);
      TraceSnoc(OpenLog(m - 1), Event(m - 1, Open(true)), i);
      TraceSnoc(PushLog(m - 1, p), Event(m - 1, Push(p, true)), i);
      TraceSnoc(DisableLog(m - 1), Event(m - 1, Disable), i);
    }
  }

  lemma {:induction false} TraceCloses(m: nat, i: nat)
    ensures Trace(CloseLog(m), i) == if i < m then [Close] else []
    decreases m
  {
    if m > 0 {
      TraceCloses(m - 1, i);
      assert CloseLog(m)[1..] == CloseLog(m - 1);
    }
  }

  function Pushes(ps: seq<Packet>): (r: seq<Call>)
    ensures |r| == |ps|
  {
    if ps == [] then [] else Pushes(ps[..|ps| - 1]) + [Push(ps[|ps| - 1], true)]
  }

  lemma {:induction false} TracePushes(n: nat, ps: seq<Packet>, i: nat)
    requires i < n
    ensures Trace(PushesLog(n, ps), i) == Pushes(ps)
    decreases |ps|
  {
    if ps != [] {
      var last := |ps| - 1;
      TracePushes(n, ps[..last], i);
      TraceAppend(PushesLog(n, ps[..last]), PushLog(n, ps[last]), i);
      TraceLoops(n, ps[last], i);
    }
  }

  /** The packets sink i accepted. */
  function Accepted(o: Outcome, i: nat): seq<Packet> {
    match o
    case Streamed(ps, Some((k, p))) => if i < k then ps + [p] else ps
    case Streamed(ps, None) => ps
    case _ => []
  }

  /** Every sink sees nothing, a disable, a failed open, or a successful open, pushes and one close. */
  ghost predicate ProtocolTrace(calls: seq<Call>, accepted: seq<Packet>) {
    || (accepted == [] && (calls == [] || calls == [Disable] || calls == [Open(false)]))
    || calls == [Open(true)] + Pushes(accepted) + [Close]
    || exists p :: calls == [Open(true)] + Pushes(accepted) + [Push(p, false)] + [Close]
  }

  lemma PushesSnoc(ps: seq<Packet>, p: Packet)
    ensures Pushes(ps + [p]) == Pushes(ps) + [Push(p, true)]
  {
    assert (ps + [p])[..|ps|] == ps;
  }

  const ANY := Packet(0, 0, false, [])

  lemma TraceOfOpenFail(k: nat, i: nat)
    ensures Trace(OpenFailLog(k), i) == if i < k then [Open(true), Close] else if i == k then [Open(false)] else []
  {
    TraceLoops(k, ANY, i);
    TraceCloses(k, i);
    TraceAppend3(OpenLog(k), [Event(k, Open(false))], CloseLog(k), i);
  }

  lemma TraceOfPushFail(k: nat, p: Packet, i: nat)
    ensures Trace(PushFailLog(k, p), i) == if i < k then [Push(p, true)] else if i == k then [Push(p, false)] else []
  {
    TraceLoops(k, p, i);
    TraceSnoc(PushLog(k, p), Event(k, Push(p, false)), i);
  }

  lemma TraceOfStream(n: nat, ps: seq<Packet>, last: seq<Event>, i: nat)
    requires i < n
    ensures Trace(OpenLog(n) + PushesLog(n, ps) + last + CloseLog(n), i)
         == [Open(true)] + Pushes(ps) + Trace(last, i) + [Close]
  {
    TraceLoops(n, ANY, i);
    TraceCloses(n, i);
    TracePushes(n, ps, i);
    TraceAppend(OpenLog(n) + PushesLog(n, ps) + last, CloseLog(n), i);
    TraceAppend3(OpenLog(n), PushesLog(n, ps), last, i);
  }

  /** The sink protocol, for every outcome of a run and every sink. */
  lemma SinkProtocol(n: nat, o: Outcome, i: nat)
    requires Possible(n, o) && i < n
    ensures ProtocolTrace(Trace(RunLog(n, o), i), Accepted(o, i))
  {
    match o
    case Untouched =>
    case Disabled => TraceLoops(n, ANY, i);
    case OpenFailed(k) =>
      TraceOfOpenFail(k, i);
      assert [Open(true), Close] == [Open(true)] + Pushes([]) + [Close];
    case Streamed(ps, None) =>
      TraceOfStream(n, ps, [], i);
      assert [Open(true)] + Pushes(ps) + [] + [Close] == [Open(true)] + Pushes(ps) + [Close];
    case Streamed(ps, Some((k, p))) =>
      TraceOfStream(n, ps, PushFailLog(k, p), i);
      TraceOfPushFail(k, p, i);
      BrokenTrace(ps, p);
  }

  lemma BrokenTrace(ps: seq<Packet>, p: Packet)
    ensures [Open(true)] + Pushes(ps) + [] + [Close] == [Open(true)] + Pushes(ps) + [Close]
    ensures [Open(true)] + Pushes(ps) + [Push(p, true)] + [Close] == [Open(true)] + Pushes(ps + [p]) + [Close]
  {
    PushesSnoc(ps, p);
  }

  /** A later sink accepts what an earlier one accepts, except at most the last packet. */
  lemma LaterSinksLag(n: nat, o: Outcome, i: nat, j: nat)
    requires Possible(n, o) && i <= j < n
    ensures Accepted(o, j) <= Accepted(o, i)
    ensures |Accepted(o, i)| <= |Accepted(o, j)| + 1
  {
  }

  // ----- the order of opens and closes in a run

  /** The sinks that get the given call, in the order of the log. */
  function Sinks(log: seq<Event>, call: Call): seq<nat> {
    if log == [] then []
    else (if log[0].call == call then [log[0].sink] else []) + Sinks(log[1..], call)
  }

  lemma {:induction false} SinksAppend(a: seq<Event>, b: seq<Event>, call: Call)
    ensures Sinks(a + b, call) == Sinks(a, call) + Sinks(b, call)
    decreases |a|
  {
    if a == [] {
      assert a + b == b;
    } else {
      assert (a + b)[0] == a[0] && (a + b)[1..] == a[1..] + b;
      SinksAppend(a[1..], b, call);
      var first := if a[0].call == call then [a[0].sink] else [];
      assert first + (Sinks(a[1..], call) + Sinks(b, call)) == first + Sinks(a[1..], call) + Sinks(b, call);
    }
  }

  lemma SinksOfOne(e: Event, call: Call)
    ensures Sinks([e], call) == if e.call == call then [e.sink] else []
  {
    assert [e][1..] == [];
  }

  function Up(n: nat): seq<nat> {
    seq(n, i => i)
  }

  function Reverse(s: seq<nat>): (r: seq<nat>)
    ensures |r| == |s|
  {
    seq(|s|, i requires 0 <= i < |s| => s[|s| - 1 - i])
  }

  lemma {:induction false} OpensGoUp(n: nat)
    ensures Sinks(OpenLog(n), Open(true)) == Up(n) && Sinks(OpenLog(n), Close) == []
  {
    if n > 0 {
      OpensGoUp(n - 1);
      var e := Event(n - 1, Open(true));
      SinksAppend(OpenLog(n - 1), [e], Open(true));
      SinksAppend(OpenLog(n - 1), [e], Close);
      SinksOfOne(e, Open(true));
      SinksOfOne(e, Close);
      assert Up(n) == Up(n - 1) + [n - 1];
    }
  }

  lemma ReverseUp(n: nat)
    requires n > 0
    ensures Reverse(Up(n)) == [n - 1] + Reverse(Up(n - 1))
  {
  }

  lemma {:induction false} ClosesGoDown(n: nat)
    ensures Sinks(CloseLog(n), Close) == Reverse(Up(n)) && Sinks(CloseLog(n), Open(true)) == []
  {
    if n > 0 {
      ClosesGoDown(n - 1);
      assert CloseLog(n)[1..] == CloseLog(n - 1);
      ReverseUp(n);
    }
  }

  /** Neither opened nor closed by what lies between. */
  ghost predicate Silent(log: seq<Event>) {
    Sinks(log, Open(true)) == [] && Sinks(log, Close) == []
  }

  lemma SilentAppend(a: seq<Event>, b: seq<Event>)
    requires Silent(a) && Silent(b)
    ensures Silent(a + b)
  {
    SinksAppend(a, b, Open(true));
    SinksAppend(a, b, Close);
  }

  lemma SilentOne(e: Event)
    requires e.call != Open(true) && e.call != Close
    ensures Silent([e])
  {
    SinksOfOne(e, Open(true));
    SinksOfOne(e, Close);
  }

  lemma {:induction false} LoopsAreSilent(n: nat, p: Packet)
    ensures Silent(PushLog(n, p)) && Silent(DisableLog(n))
  {
    if n > 0 {
      LoopsAreSilent(n - 1, p);
      SilentOne(Event(n - 1, Push(p, true)));
      SilentOne(Event(n - 1, Disable));
      SilentAppend(PushLog(n - 1, p), [Event(n - 1, Push(p, true))]);
      SilentAppend(DisableLog(n - 1), [Event(n - 1, Disable)]);
    }
  }

  lemma {:induction false} PushesAreSilent(n: nat, ps: seq<Packet>)
    ensures Silent(PushesLog(n, ps))
    decreases |ps|
  {
    if ps != [] {
      var last := |ps| - 1;
      PushesAreSilent(n, ps[..last]);
      LoopsAreSilent(n, ps[last]);
      SilentAppend(PushesLog(n, ps[..last]), PushLog(n, ps[last]));
    }
  }

  lemma BrokenIsSilent(broken: Option<(nat, Packet)>)
    ensures Silent(BrokenLog(broken))
  {
    match broken
    case None =>
    case Some((k, p)) =>
      LoopsAreSilent(k, p);
      SilentOne(Event(k, Push(p, false)));
      SilentAppend(PushLog(k, p), [Event(k, Push(p, false))]);
  }

  lemma OpenedThenClosed(n: nat, between: seq<Event>)
    requires Silent(between)
    ensures Sinks(OpenLog(n) + between + CloseLog(n), Open(true)) == Up(n)
    ensures Sinks(OpenLog(n) + between + CloseLog(n), Close) == Reverse(Up(n))
  {
    OpensGoUp(n);
    ClosesGoDown(n);
    SinksAppend(OpenLog(n) + between, CloseLog(n), Open(true));
    SinksAppend(OpenLog(n) + between, CloseLog(n), Close);
    SinksAppend(OpenLog(n), between, Open(true));
    SinksAppend(OpenLog(n), between, Close);
  }

  /** In every run the sinks that were opened are closed, each once, in the reverse order. */
  lemma ClosesReverseOpens(n: nat, o: Outcome)
    requires Possible(n, o)
    ensures Sinks(RunLog(n, o), Close) == Reverse(Sinks(RunLog(n, o), Open(true)))
  {
    match o
    case Untouched =>
    case Disabled => LoopsAreSilent(n, ANY);
    case OpenFailed(k) =>
      SilentOne(Event(k, Open(false)));
      OpenedThenClosed(k, [Event(k, Open(false))]);
    case Streamed(ps, broken) =>
      PushesAreSilent(n, ps);
      BrokenIsSilent(broken);
      SilentAppend(PushesLog(n, ps), BrokenLog(broken));
      OpenedThenClosed(n, PushesLog(n, ps) + BrokenLog(broken));
      assert OpenLog(n) + (PushesLog(n, ps) + BrokenLog(broken)) == OpenLog(n) + PushesLog(n, ps) + BrokenLog(broken);
  }
}
