/**
 * The endpoints that wire the day 23 computers together: the channels
 * between them, the consumer each computer reads its input from and the
 * producer its output goes to.
 *
 * Every `sync_channel` of the network is one FIFO queue of a `Bus`, and a
 * `Sender` or `Receiver` is the number of its queue. The network runs on
 * one thread, so sends and receives happen one after the other in program
 * order and a queue is exactly the sequence of values sent and not yet
 * received.
 */
module Day23Endpoints {
  import opened IntcodeCommon

  type Channels = seq<seq<int>>

  /**
   * `send(v).ok()`: append `v` to queue `ch`. A send on a queue that does
   * not exist is dropped, as is a send whose receiver has hung up.
   */
  function Enqueued(chs: Channels, ch: nat, v: int): (r: Channels)
    ensures |r| == |chs|
    ensures ch < |chs| ==> r[ch] == chs[ch] + [v]
    ensures forall i :: 0 <= i < |chs| && i != ch ==> r[i] == chs[i]
  {
    if ch < |chs| then chs[ch := chs[ch] + [v]] else chs
  }

  /** `try_recv()`: the front of queue `ch` and the channels without it, or nothing when it is empty. */
  function Dequeued(chs: Channels, ch: nat): (r: Option<(int, Channels)>)
    ensures r.Some? <==> ch < |chs| && |chs[ch]| > 0
    ensures r.Some? ==> |r.value.1| == |chs| && [r.value.0] + r.value.1[ch] == chs[ch]
    ensures r.Some? ==> forall i :: 0 <= i < |chs| && i != ch ==> r.value.1[i] == chs[i]
  {
    if ch < |chs| && |chs[ch]| > 0 then Some((chs[ch][0], chs[ch := chs[ch][1..]])) else None
  }

  /** The queues of the network, changed in place by every send and receive. */
  class Bus {
    var channels: Channels

    constructor (initial: Channels)
      ensures channels == initial
    {
      channels := initial;
    }

    method Send(ch: nat, v: int)
      modifies this
      ensures channels == Enqueued(old(channels), ch, v)
    {
      if ch < |channels| {
        channels := channels[ch := channels[ch] + [v]];
      }
    }

    method TryRecv(ch: nat) returns (v: Option<int>)
      modifies this
      ensures var r := Dequeued(old(channels), ch);
        && (v.Some? <==> r.Some?)
        && (r.Some? ==> v.value == r.value.0 && channels == r.value.1)
        && (r.None? ==> channels == old(channels))
    {
      if ch < |channels| && |channels[ch]| > 0 {
        v := Some(channels[ch][0]);
        channels := channels[ch := channels[ch][1..]];
      } else {
        v := None;
      }
    }
  }

  /**
   * The input side of a computer: its own queue, the queue of the NAT and
   * the computer's address. None of these change; receiving changes only
   * the queues.
   */
  datatype ConnectConsumer = ConnectConsumer(receiver: nat, natSender: nat, idx: int) {

    /** `get_value` */
    method GetValue(bus: Bus) returns (receivedValue: int)
      modifies bus
      ensures (receivedValue, bus.channels) == Receive(this, old(bus.channels))
    {
      var received := bus.TryRecv(receiver);
      receivedValue := if received.Some? then received.value else -1;
      if receivedValue == -1 {
        bus.Send(natSender, -1);
      }
    }
  }

  /**
   * What `get_value` does to the queues: the value at the front of the
   * computer's queue, or -1 when the queue is empty; a -1 it returns, taken
   * from the queue or not, is also reported to the NAT.
   */
  function Receive(c: ConnectConsumer, chs: Channels): (r: (int, Channels))
    ensures |r.1| == |chs|
    ensures c.receiver < |chs| && |chs[c.receiver]| > 0 ==> r.0 == chs[c.receiver][0]
    ensures !(c.receiver < |chs| && |chs[c.receiver]| > 0) ==> r.0 == -1
  {
    var v := match Dequeued(chs, c.receiver) case Some(got) => got case None => (-1, chs);
    if v.0 == -1 then (v.0, Enqueued(v.1, c.natSender, -1)) else v
  }

  /**
   * A computer polling an empty queue reads -1, its queue stays empty and
   * the NAT's queue gains one -1; a value at the front of the queue is
   * handed over and removed, and only a -1 is reported to the NAT.
   */
  lemma {:induction false} ReceiveEffect(c: ConnectConsumer, chs: Channels)
    requires c.receiver < |chs| && c.natSender < |chs| && c.receiver != c.natSender
    ensures |chs[c.receiver]| == 0 ==>
      Receive(c, chs).0 == -1 && Receive(c, chs).1 == chs[c.natSender := chs[c.natSender] + [-1]]
    ensures |chs[c.receiver]| > 0 ==>
      && Receive(c, chs).1[c.receiver] == chs[c.receiver][1..]
      && Receive(c, chs).1[c.natSender] == chs[c.natSender] + (if chs[c.receiver][0] == -1 then [-1] else [])
      && (forall i :: 0 <= i < |chs| && i != c.receiver && i != c.natSender ==> Receive(c, chs).1[i] == chs[i])
  {
    if |chs[c.receiver]| > 0 {
      var got := Dequeued(chs, c.receiver).value;
      assert got.1[c.receiver] == chs[c.receiver][1..] by {
        assert [got.0] + got.1[c.receiver] == chs[c.receiver];
      }
    }
  }

  /** The value of a `ConnectProducer`. */
  datatype Producer = Producer(senders: seq<nat>, natSender: nat, cpuSend: nat, idx: nat, cache: seq<int>)

  /** `initialise` of `ConnectProducer` */
  function FreshProducer(senders: seq<nat>, natSender: nat): Producer {
    Producer(senders, natSender, 0, 0, [])
  }

  /** Sends every cached value, oldest first, to queue `dest` and then to the NAT (the `while let` loop). */
  function Flush(chs: Channels, dest: nat, natSender: nat, cache: seq<int>): (r: Channels)
    ensures |r| == |chs|
    decreases |cache|
  {
    if cache == [] then chs
    else Flush(Enqueued(Enqueued(chs, dest, cache[0]), natSender, cache[0]), dest, natSender, cache[1..])
  }

  /** Flushing delivers the whole cache, in order, both to `dest` and to the NAT and touches no other queue. */
  lemma {:induction false} FlushDelivers(chs: Channels, dest: nat, natSender: nat, cache: seq<int>)
    requires dest < |chs| && natSender < |chs| && dest != natSender
    ensures Flush(chs, dest, natSender, cache)[dest] == chs[dest] + cache
    ensures Flush(chs, dest, natSender, cache)[natSender] == chs[natSender] + cache
    ensures forall i :: 0 <= i < |chs| && i != dest && i != natSender ==> Flush(chs, dest, natSender, cache)[i] == chs[i]
    decreases |cache|
  {
    if cache != [] {
      var next := Enqueued(Enqueued(chs, dest, cache[0]), natSender, cache[0]);
      assert next == chs[dest := chs[dest] + [cache[0]]][natSender := chs[natSender] + [cache[0]]];
      FlushDelivers(next, dest, natSender, cache[1..]);
      var flushed := Flush(chs, dest, natSender, cache);
      assert flushed == Flush(next, dest, natSender, cache[1..]);
      assert [cache[0]] + cache[1..] == cache;
      assert flushed[dest] == chs[dest] + [cache[0]] + cache[1..] == chs[dest] + cache;
      assert flushed[natSender] == chs[natSender] + [cache[0]] + cache[1..] == chs[natSender] + cache;
      forall i | 0 <= i < |chs| && i != dest && i != natSender
        ensures flushed[i] == chs[i]
      {
        assert next[i] == chs[i];
      }
    }
  }

  /**
   * `load_value`: the first value of a group is the destination, the next
   * two are cached; a full packet for 255 goes to the NAT alone, any other
   * full packet goes to its destination and, copied, to the NAT. An
   * address with no computer is a panic on `senders[dest]`.
   */
  function Load(p: Producer, chs: Channels, value: int): Result<(Producer, Channels)> {
    var loaded := if p.idx == 0 then p.(cpuSend := AsUsize(value)) else p.(cache := p.cache + [value]);
    var counted := loaded.(idx := loaded.idx + 1);
    if counted.cpuSend == 255 && |counted.cache| == 2 then
      var x, y := counted.cache[0], counted.cache[1];
      Success((counted.(cache := []),
               Enqueued(Enqueued(Enqueued(chs, counted.natSender, AsI64(counted.cpuSend)), counted.natSender, x), counted.natSender, y)))
    else if |counted.cache| == 2 then
      if counted.cpuSend >= |counted.senders| then Failure(NoSuchChannel(counted.cpuSend))
      else
        Success((counted.(idx := 0, cache := []),
                 Flush(Enqueued(chs, counted.natSender, AsI64(counted.cpuSend)), counted.senders[counted.cpuSend],
                       counted.natSender, counted.cache)))
    else
      Success((counted, chs))
  }

  /** Three loads from a producer between packets: the packet is (`dest`, `x`, `y`). */
  function LoadPacket(p: Producer, chs: Channels, dest: int, x: int, y: int): Result<(Producer, Channels)> {
    var first :- Load(p, chs, dest);
    var second :- Load(first.0, first.1, x);
    Load(second.0, second.1, y)
  }

  /**
   * A packet for an ordinary address reaches that computer's queue as x
   * then y, the NAT's queue receives dest, x, y, no other queue changes,
   * and the producer is back between packets.
   */
  lemma {:induction false} PacketIsRouted(senders: seq<nat>, natSender: nat, chs: Channels, dest: int, x: int, y: int)
    requires 0 <= dest < |senders| && dest != 255 && dest < HALF_WORD
    requires senders[dest] < |chs| && natSender < |chs| && senders[dest] != natSender
    ensures var r := LoadPacket(FreshProducer(senders, natSender), chs, dest, x, y);
      && r.Success?
      && r.value.0 == FreshProducer(senders, natSender).(cpuSend := dest)
      && |r.value.1| == |chs|
      && r.value.1[senders[dest]] == chs[senders[dest]] + [x, y]
      && r.value.1[natSender] == chs[natSender] + [dest, x, y]
      && (forall i :: 0 <= i < |chs| && i != senders[dest] && i != natSender ==> r.value.1[i] == chs[i])
  {
    var afterDest := Enqueued(chs, natSender, dest);
    FlushDelivers(afterDest, senders[dest], natSender, [x, y]);
    assert chs[natSender] + [dest] + [x, y] == chs[natSender] + [dest, x, y];
  }

  /** A packet with an address no computer has panics once its two values are cached. */
  lemma PacketToNowhere(senders: seq<nat>, natSender: nat, chs: Channels, dest: int, x: int, y: int)
    requires |senders| <= dest < HALF_WORD && dest != 255
    ensures LoadPacket(FreshProducer(senders, natSender), chs, dest, x, y) == Failure(NoSuchChannel(dest))
  {
  }

  /**
   * A packet for 255 goes to the NAT alone as 255, x, y, and the producer
   * does not return between packets: it keeps 255 as the destination and
   * its count past 0, so every later pair of outputs goes to the NAT too.
   */
  lemma {:induction false} PacketForNat(p: Producer, chs: Channels, x: int, y: int)
    requires p.cache == [] && p.natSender < |chs|
    requires p.idx == 0 || p.cpuSend == 255
    ensures var r := if p.idx == 0 then LoadPacket(p, chs, 255, x, y)
                     else Load(Load(p, chs, x).value.0, Load(p, chs, x).value.1, y);
      && r.Success?
      && r.value.0.cpuSend == 255 && r.value.0.cache == [] && r.value.0.idx == p.idx + (if p.idx == 0 then 3 else 2)
      && r.value.1 == chs[p.natSender := chs[p.natSender] + [255, x, y]]
  {
    var n := p.natSender;
    var sent := Enqueued(Enqueued(Enqueued(chs, n, 255), n, x), n, y);
    assert sent[n] == chs[n] + [255, x, y];
    assert sent == chs[n := chs[n] + [255, x, y]];
  }

  /** The mutable producer. */
  class ConnectProducer {
    var senders: seq<nat>
    var natSender: nat
    var cpuSend: nat
    var idx: nat
    var cache: seq<int>

    function Model(): Producer
      reads this
    {
      Producer(senders, natSender, cpuSend, idx, cache)
    }

    /** `initialise` */
    constructor Initialise(allSenders: seq<nat>, toNat: nat)
      ensures Model() == FreshProducer(allSenders, toNat)
    {
      senders := allSenders;
      natSender := toNat;
      cpuSend := 0;
      idx := 0;
      cache := [];
    }

    /** `load_value`: `fault` is the panic of `senders[dest]` out of bounds. */
    method LoadValue(value: int, bus: Bus) returns (fault: Option<Fault>)
      modifies this, bus
      ensures var r := Load(old(Model()), old(bus.channels), value);
        && (fault.None? <==> r.Success?)
        && (r.Success? ==> Model() == r.value.0 && bus.channels == r.value.1)
        && (r.Failure? ==> fault == Some(r.fault))
    {
      if idx == 0 {
        cpuSend := AsUsize(value);
      } else {
        cache := cache + [value];
      }
      idx := idx + 1;
      if cpuSend == 255 && |cache| == 2 {
        var x, y := cache[0], cache[1];
        cache := [];
        bus.Send(natSender, AsI64(cpuSend));
        bus.Send(natSender, x);
        bus.Send(natSender, y);
      } else if |cache| == 2 {
        idx := 0;
        bus.Send(natSender, AsI64(cpuSend));
        if cpuSend >= |senders| {
          return Some(NoSuchChannel(cpuSend));
        }
        ghost var flushed := Flush(bus.channels, senders[cpuSend], natSender, cache);
        ghost var dest := cpuSend;
        ghost var kept := Model().(cache := []);
        while cache != []
          invariant cpuSend == dest < |senders|
          invariant Model().(cache := []) == kept
          invariant Flush(bus.channels, senders[cpuSend], natSender, cache) == flushed
          decreases |cache|
        {
          var sendValue := cache[0];
          cache := cache[1..];
          bus.Send(senders[cpuSend], sendValue);
          bus.Send(natSender, sendValue);
        }
      }
      fault := None;
    }
  }
}
