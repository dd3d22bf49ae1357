/**
  sc_packet_merger of src/codec/packet_merge.cpp: a config packet is kept and prepended to the next
  media packet. First the function on sequences and what it means, then the class that works in
  place on the packet buffer.
 */
module Merging {
  import opened Wrappers
  import opened Bits
  import opened Framing
  import opened Environment

  function IsConfig(p: Packet): bool {
    p.pts == NOPTS
  }

  /** One packet through the merger: the packet that comes out, and what is pending afterwards. */
  function MergeStep(pending: Option<seq<byte>>, p: Packet): (Packet, Option<seq<byte>>) {
    if IsConfig(p) then (p, Some(p.data))
    else if pending.Some? then (p.(data := pending.value + p.data), None)
    else (p, None)
  }

  function MergeAll(pending: Option<seq<byte>>, ps: seq<Packet>): (r: seq<Packet>)
    ensures |r| == |ps|
    decreases |ps|
  {
    if ps == [] then []
    else var (p, pending') := MergeStep(pending, ps[0]); [p] + MergeAll(pending', ps[1..])
  }

  function PendingAfter(pending: Option<seq<byte>>, ps: seq<Packet>): Option<seq<byte>>
    decreases |ps|
  {
    if ps == [] then pending else PendingAfter(MergeStep(pending, ps[0]).1, ps[1..])
  }

  lemma {:induction false} MergeAppend(pending: Option<seq<byte>>, ps: seq<Packet>, p: Packet)
    ensures MergeAll(pending, ps + [p]) == MergeAll(pending, ps) + [MergeStep(PendingAfter(pending, ps), p).0]
    ensures PendingAfter(pending, ps + [p]) == MergeStep(PendingAfter(pending, ps), p).1
    decreases |ps|
  {
    if ps == [] {
      assert [] + [p] == [p];
    } else {
      assert (ps + [p])[1..] == ps[1..] + [p];
      MergeAppend(MergeStep(pending, ps[0]).1, ps[1..], p);
    }
  }

  /** What comes out at place i, read off the input alone: a media packet gets the config packet just before it. */
  function Merged(ps: seq<Packet>, i: nat): Packet
    requires i < |ps|
  {
    if !IsConfig(ps[i]) && i > 0 && IsConfig(ps[i - 1])
    then ps[i].(data := ps[i - 1].data + ps[i].data)
    else ps[i]
  }

  lemma {:induction false} MergeAllAt(pending: Option<seq<byte>>, ps: seq<Packet>, i: nat)
    requires i < |ps|
    ensures MergeAll(pending, ps)[i] == if i == 0 then MergeStep(pending, ps[0]).0 else Merged(ps, i)
    decreases i
  {
    if i > 0 {
      MergeAllAt(MergeStep(pending, ps[0]).1, ps[1..], i - 1);
    }
  }

  // ----- conservation of bytes

  function TotalLength(ps: seq<Packet>): nat {
    if ps == [] then 0 else TotalLength(ps[..|ps| - 1]) + |ps[|ps| - 1].data|
  }

  /** The bytes of the config packets that stand directly before a media packet. */
  function PrependedLength(ps: seq<Packet>): nat {
    if ps == [] then 0
    else
      var i := |ps| - 1;
      PrependedLength(ps[..i]) + if !IsConfig(ps[i]) && i > 0 && IsConfig(ps[i - 1]) then |ps[i - 1].data| else 0
  }

  lemma {:induction false} MergeConserves(ps: seq<Packet>)
    ensures TotalLength(MergeAll(None, ps)) == TotalLength(ps) + PrependedLength(ps)
    decreases |ps|
  {
    if ps != [] {
      var i := |ps| - 1;
      assert ps == ps[..i] + [ps[i]];
      MergeAppend(None, ps[..i], ps[i]);
      MergeAllAt(None, ps, i);
      MergeConserves(ps[..i]);
      assert MergeAll(None, ps)[..i] == MergeAll(None, ps[..i]);
    }
  }

  // ----- in place

  /** An AVPacket: a buffer and its description. */
  class AvPacket {
    var data: array<byte>
    var pts: int
    var dts: int
    var key: bool

    constructor ()
      ensures fresh(data)
    {
      data := new byte[0];
      pts, dts, key := NOPTS, NOPTS, false;
    }

    ghost function View(): Packet
      reads this, data
    {
      Packet(pts, dts, key, data[..])
    }

    /** av_grow_packet(): a larger buffer that starts with the old content. */
    method Grow(n: nat, env: Env) returns (ok: bool)
      modifies this`data, env
      ensures env.faults == old(env.faults) + if ok then 0 else 1
      ensures if ok then fresh(data) && data.Length == old(data.Length) + n && data[..old(data.Length)] == old(data[..])
              else data == old(data)
    {
      ok := env.Try();
      if ok {
        var larger := new byte[data.Length + n];
        MemCopy(larger, data);
        data := larger;
      }
    }
  }

  method MemCopy(dest: array<byte>, src: array<byte>)
    requires dest != src && src.Length <= dest.Length
    modifies dest
    ensures dest[..src.Length] == src[..]
    ensures dest[src.Length..] == old(dest[src.Length..])
  {
    for i := 0 to src.Length
      invariant dest[..i] == src[..i]
      invariant dest[src.Length..] == old(dest[src.Length..])
    {
      dest[i] := src[i];
    }
  }

  /** memmove() to a higher address within one buffer, from the end so that no byte is lost. */
  method MemMoveUp(a: array<byte>, shift: nat, n: nat)
    requires shift + n <= a.Length
    modifies a
    ensures a[shift..shift + n] == old(a[..n])
    ensures a[shift + n..] == old(a[shift + n..])
  {
    var i := n;
    while i > 0
      invariant 0 <= i <= n
      invariant a[..i] == old(a[..i])
      invariant a[shift + i..shift + n] == old(a[i..n])
      invariant a[shift + n..] == old(a[shift + n..])
    {
      i := i - 1;
      a[shift + i] := a[i];
      assert a[shift + i..shift + n] == [old(a[i])] + a[shift + i + 1..shift + n];
      assert old(a[i..n]) == [old(a[i])] + old(a[i + 1..n]);
    }
  }

  class Merger {
    var config: array?<byte>

    ghost function Pending(): Option<seq<byte>>
      reads this, config
    {
      if config == null then None else Some(config[..])
    }

    constructor ()
      ensures config == null
    {
      config := null;
    }

    /** Succeeds unless memory runs out; then a kept config packet is lost or the packet is left alone. */
    method Merge(packet: AvPacket, env: Env) returns (ok: bool)
      requires config != packet.data
      modifies this, packet`data, env
      ensures env.faults == old(env.faults) + if ok then 0 else 1
      ensures ok ==> (packet.View(), Pending()) == MergeStep(old(Pending()), old(packet.View()))
      ensures !ok ==> packet.View() == old(packet.View())
      ensures !ok ==> Pending() == if IsConfig(old(packet.View())) then None else old(Pending())
      ensures config != packet.data
      ensures config == null || config == old(config) || fresh(config)
      ensures packet.data == old(packet.data) || fresh(packet.data)
    {
      ok := true;
      if packet.pts == NOPTS {
        config := null;
        ok := env.Try();
        if !ok {
          return;
        }
        var kept := new byte[packet.data.Length];
        MemCopy(kept, packet.data);
        assert kept[..] == kept[..packet.data.Length];
        config := kept;
      } else if config != null {
        var size := packet.data.Length;
        ghost var media := packet.data[..];
        ok := packet.Grow(config.Length, env);
        if !ok {
          return;
        }
        MemMoveUp(packet.data, config.Length, size);
        assert packet.data[config.Length..] == packet.data[config.Length..config.Length + size] == media;
        MemCopy(packet.data, config);
        assert packet.data[..] == packet.data[..config.Length] + packet.data[config.Length..];
        config := null;
      }
    }
  }
}
