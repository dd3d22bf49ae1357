/**
  sc_pipe_read_all() of src/util/sc_process.cpp, and its use by a worker that can be interrupted, in
  src/util/process_intr.cpp.
 */
module ProcessPipe {
  import opened Wrappers
  import opened Bits
  import opened SocketMemory
  import opened NetIntr
  import opened Environment

  function Min(a: nat, b: nat): nat {
    if a < b then a else b
  }

  /** A buffer after the first r bytes of the output have been written at a place. */
  function Spliced(buffer: seq<byte>, at: nat, output: seq<byte>, r: nat): seq<byte>
    requires at + r <= |buffer| && r <= |output|
  {
    buffer[..at] + output[..r] + buffer[at + r..]
  }

  /** The buffer starts with the first `copied` bytes of the output and is as it was behind them. */
  ghost predicate Filled(now: seq<byte>, start: seq<byte>, output: seq<byte>, copied: nat) {
    copied <= |output| && copied <= |start| && now == output[..copied] + start[copied..]
  }

  /** The output of a process that is still to be read. */
  class Pipe {
    var rest: seq<byte>

    constructor (output: seq<byte>)
      ensures rest == output
    {
      rest := output;
    }

    /** ReadFile(): some bytes; at the end of the output none, or -1 if the pipe is broken; -1 on a failure. */
    method Read(data: array<byte>, at: nat, len: nat, env: Env) returns (r: int)
      requires at + len <= data.Length && len > 0
      modifies this, data, env
      ensures -1 <= r <= len && (r > 0 ==> r <= |old(rest)|)
      ensures r <= 0 ==> rest == old(rest) && data[..] == old(data[..])
      ensures r <= 0 ==> env.faults > old(env.faults) || (rest == [] && env.faults == old(env.faults))
      ensures r > 0 ==>
        && data[..] == Spliced(old(data[..]), at, old(rest), r)
        && rest == old(rest)[r..] && env.faults == old(env.faults)
    {
      var ok := env.Try();
      if !ok {
        return -1;
      }
      if rest == [] {
        var broken := *;
        return if broken then -1 else 0;
      }
      var most := Min(len, |rest|);
      assert 0 < most <= most;
      var n: int :| 0 < n <= most;
      forall i | 0 <= i < n {
        data[at + i] := rest[i];
      }
      rest := rest[n..];
      r := n;
    }

    /** Fills data as far as the output goes; what was read before a failure is kept. */
    method ReadAll(data: array<byte>, env: Env) returns (r: int)
      modifies this, data, env
      ensures r == -1 ==> env.faults > old(env.faults) || old(rest) == []
      ensures r == -1 ==> rest == old(rest) && data[..] == old(data[..])
      ensures r != -1 ==> 0 <= r <= Min(data.Length, |old(rest)|)
      ensures r != -1 ==> Filled(data[..], old(data[..]), old(rest), r) && rest == old(rest)[r..]
      ensures env.faults == old(env.faults) && r != -1 ==> r == Min(data.Length, |old(rest)|)
    {
      var len, copied := data.Length, 0;
      while len > 0
        invariant 0 <= copied <= |old(rest)| && 0 <= len && copied + len == data.Length
        invariant Filled(data[..], old(data[..]), old(rest), copied)
        invariant rest == old(rest)[copied..] && env.faults == old(env.faults)
      {
        ghost var before := data[..];
        r := Read(data, copied, len, env);
        if r <= 0 {
          StopsAt(data[..], old(data[..]), old(rest), copied);
          return if copied != 0 then copied else r;
        }
        Advance(before, old(data[..]), old(rest), copied, r);
        len := len - r;
        copied := copied + r;
      }
      r := copied;
    }

    /**
      An interrupt that came first keeps the call from reading at all. Otherwise the process is published
      when the reading starts, `during` is the slot then, and the slot is empty afterwards.
     */
    method ReadAllIntr(intr: Intr, pid: Pid, data: array<byte>, env: Env, ghost m: Memory)
      returns (r: int, ghost during: Option<Pid>)
      requires intr.Valid(m) && intr.socket == None
      modifies this, data, env, intr
      ensures intr.Valid(m) && intr.socket == None && intr.interrupted == old(intr.interrupted)
      ensures old(intr.interrupted) ==> r == -1 && rest == old(rest) && data[..] == old(data[..])
      ensures during == if old(intr.interrupted) then None else Some(pid)
      ensures intr.process == None
      ensures !old(intr.interrupted) && env.faults == old(env.faults) && old(rest) != [] ==>
        r == Min(data.Length, |old(rest)|) && data[..r] == old(rest)[..r] && rest == old(rest)[r..]
    {
      var published := intr.SetProcess(Some(pid), m);
      during := intr.process;
      if !published {
        return -1, during;
      }
      r := ReadAll(data, env);
      var cleared := intr.SetProcess(None, m);
    }
  }

  /** Where the reading stops, nothing has been copied or nothing is left, or a failure came. */
  lemma StopsAt(now: seq<byte>, start: seq<byte>, output: seq<byte>, copied: nat)
    requires Filled(now, start, output, copied)
    ensures copied == 0 ==> now == start && output[copied..] == output
    ensures output[copied..] == [] ==> copied == |output|
  {
  }

  /** One more chunk is written behind what has been copied. */
  lemma Advance(before: seq<byte>, start: seq<byte>, output: seq<byte>, copied: nat, r: nat)
    requires Filled(before, start, output, copied) && copied + r <= |start| && copied + r <= |output|
    ensures Filled(Spliced(before, copied, output[copied..], r), start, output, copied + r)
    ensures output[copied..][r..] == output[copied + r..]
  {
  }
}
