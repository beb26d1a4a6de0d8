/**
 * The day 23 network: fifty computers polled in turn, one instruction
 * each, and a NAT that watches a shared queue of reports. Every -1 a
 * computer reads is reported to the NAT, and so is every packet a
 * computer sends; the NAT counts idle reports, remembers the last packet
 * addressed to 255 and, once more than 100000 idle reports have arrived
 * without traffic in between, sends that packet to computer 0.
 *
 * Queue i of the bus (i < 50) belongs to computer i; queue 50 is the
 * NAT's.
 */
module Day23Network {
  import opened IntcodeCommon
  import opened IntcodeCore
  import opened IntcodeRun
  import opened Day23Endpoints
  import opened Day23Cpu
  import opened ProgramText

  const NUMBER_OF_COMPUTERS: nat := 50
  /** The index of the NAT's queue on the bus. */
  const NAT_QUEUE: nat := NUMBER_OF_COMPUTERS
  /** The NAT resends its packet once it has seen more idle reports than this. */
  const IDLE_LIMIT: nat := 100000

  /** The value of a `NAT`: its queue, the queue it sends to, the last packet for 255 and the idle count. */
  datatype NatState = NatState(receiver: nat, sender: nat, x: int, y: int, idleCount: nat)

  function Queue(chs: Channels, ch: nat): seq<int> {
    if ch < |chs| then chs[ch] else []
  }

  /**
   * The `while let` loop of `check_nat` over the values waiting in the
   * NAT's queue: -1 is an idle report, 255 is followed by the packet to
   * keep, anything else is a destination followed by a packet that shows
   * traffic. A packet cut short is an `unwrap` on an empty queue.
   */
  function Drain(n: NatState, q: seq<int>): (r: Result<NatState>)
    ensures r.Success? ==> r.value.receiver == n.receiver && r.value.sender == n.sender
    decreases |q|
  {
    if q == [] then Success(n)
    else if q[0] == -1 then Drain(n.(idleCount := n.idleCount + 1), q[1..])
    else if |q| < 3 then Failure(EmptyChannel)
    else if q[0] == 255 then Drain(n.(x := q[1], y := q[2]), q[3..])
    else Drain(n.(idleCount := 0), q[3..])
  }

  /** The queues with queue `ch`, if there is one, emptied. */
  function Emptied(chs: Channels, ch: nat): Channels {
    if ch < |chs| then chs[ch := []] else chs
  }

  /**
   * `check_nat`: empty the NAT's queue, then, past the idle limit, send
   * the kept packet to the NAT's sender and start counting again.
   */
  function CheckedNat(n: NatState, chs: Channels): (r: Result<(NatState, Channels)>)
    ensures r.Success? ==> |r.value.1| == |chs| && r.value.0.idleCount <= IDLE_LIMIT
    ensures r.Success? && n.receiver < |chs| && n.receiver != n.sender ==> r.value.1[n.receiver] == []
    ensures r.Success? <==> Drain(n, Queue(chs, n.receiver)).Success?
  {
    var drained :- Drain(n, Queue(chs, n.receiver));
    var emptied := Emptied(chs, n.receiver);
    if drained.idleCount > IDLE_LIMIT then
      Success((drained.(idleCount := 0), Enqueued(Enqueued(emptied, n.sender, drained.x), n.sender, drained.y)))
    else
      Success((drained, emptied))
  }

  /**
   * The NAT resends exactly when the idle count is past the limit after
   * draining, and then the sender's queue gains the kept packet.
   */
  lemma NatResends(n: NatState, chs: Channels)
    requires n.sender < |chs| && n.receiver != n.sender
    requires Drain(n, Queue(chs, n.receiver)).Success?
    ensures var drained := Drain(n, Queue(chs, n.receiver)).value;
      var r := CheckedNat(n, chs).value;
      && (drained.idleCount > IDLE_LIMIT ==>
            r.1[n.sender] == chs[n.sender] + [drained.x, drained.y] && r.0 == drained.(idleCount := 0))
      && (drained.idleCount <= IDLE_LIMIT ==> r.1[n.sender] == chs[n.sender] && r.0 == drained)
  {
  }

  /** The shape of what computers report to the NAT: idle reports and three-value packets that do not start with -1. */
  predicate Reports(q: seq<int>)
    decreases |q|
  {
    || q == []
    || (q[0] == -1 && Reports(q[1..]))
    || (q[0] != -1 && |q| >= 3 && Reports(q[3..]))
  }

  /** The NAT empties its queue without panicking exactly when the queue holds whole reports. */
  lemma {:induction false} DrainSucceeds(n: NatState, q: seq<int>)
    ensures Drain(n, q).Success? <==> Reports(q)
    decreases |q|
  {
    if q != [] {
      if q[0] == -1 {
        DrainSucceeds(n.(idleCount := n.idleCount + 1), q[1..]);
      } else if |q| >= 3 {
        if q[0] == 255 {
          DrainSucceeds(n.(x := q[1], y := q[2]), q[3..]);
        } else {
          DrainSucceeds(n.(idleCount := 0), q[3..]);
        }
      }
    }
  }

  /** Reports followed by reports are reports. */
  lemma {:induction false} ReportsAppend(a: seq<int>, b: seq<int>)
    requires Reports(a) && Reports(b)
    ensures Reports(a + b)
    decreases |a|
  {
    if a == [] {
      assert a + b == b;
    } else if a[0] == -1 {
      ReportsAppend(a[1..], b);
      assert (a + b)[0] == -1 && (a + b)[1..] == a[1..] + b;
    } else {
      assert |a| >= 3 && Reports(a[3..]);
      ReportsAppend(a[3..], b);
      assert (a + b)[0] == a[0] && (a + b)[3..] == a[3..] + b;
    }
  }

  /** Draining two stretches of whole reports is draining one after the other. */
  lemma {:induction false} DrainAppend(n: NatState, a: seq<int>, b: seq<int>)
    requires Reports(a)
    ensures Drain(n, a).Success? && Drain(n, a + b) == Drain(Drain(n, a).value, b)
    decreases |a|
  {
    DrainSucceeds(n, a);
    if a == [] {
      assert a + b == b;
    } else if a[0] == -1 {
      DrainAppend(n.(idleCount := n.idleCount + 1), a[1..], b);
      assert (a + b)[1..] == a[1..] + b;
    } else if a[0] == 255 {
      DrainAppend(n.(x := a[1], y := a[2]), a[3..], b);
      assert (a + b)[3..] == a[3..] + b;
    } else {
      DrainAppend(n.(idleCount := 0), a[3..], b);
      assert (a + b)[3..] == a[3..] + b;
    }
  }

  /**
   * After any whole reports, a last packet for 255 is the one the NAT
   * keeps, and a last packet for a computer clears the idle count.
   */
  lemma LastPacketDecides(n: NatState, q: seq<int>, dest: int, x: int, y: int)
    requires Reports(q) && dest != -1
    ensures Drain(n, q).Success? && Drain(n, q + [dest, x, y]).Success?
    ensures dest == 255 ==> Drain(n, q + [dest, x, y]).value.x == x && Drain(n, q + [dest, x, y]).value.y == y
    ensures dest != 255 ==> Drain(n, q + [dest, x, y]).value.idleCount == 0
    ensures dest == 255 ==> Drain(n, q + [dest, x, y]).value.idleCount == Drain(n, q).value.idleCount
  {
    DrainAppend(n, q, [dest, x, y]);
  }

  /** Every idle report in a row counts once, and nothing else changes. */
  lemma {:induction false} IdleReportsCount(n: NatState, k: nat)
    ensures Drain(n, seq(k, _ => -1)) == Success(n.(idleCount := n.idleCount + k))
    decreases k
  {
    if k > 0 {
      IdleReportsCount(n.(idleCount := n.idleCount + 1), k - 1);
      assert seq(k, _ => -1)[1..] == seq(k - 1, _ => -1);
    }
  }

  /**
   * How a computer is wired into a bus of `count` queues: it reports to
   * the NAT's queue, reads from a queue that is not the NAT's, and sends
   * packets only to queues that exist and are not the NAT's.
   */
  ghost predicate Wired(m: Machine, count: nat) {
    && m.consumer.natSender == NAT_QUEUE
    && m.consumer.receiver != NAT_QUEUE && m.consumer.receiver < count
    && m.producer.natSender == NAT_QUEUE
    && |m.producer.senders| < HALF_WORD
    && (forall d :: d in m.producer.senders ==> d < count && d != NAT_QUEUE)
  }

  /** A computer's state on a bus that holds its NAT queue, with only whole reports in it. */
  ghost predicate WiredState(s: State) {
    NAT_QUEUE < |s.1| && Wired(s.0, |s.1|) && Reports(s.1[NAT_QUEUE])
  }

  /** A producer that reports to a NAT queue of whole reports keeps it so. */
  lemma LoadKeepsReports(p: Producer, chs: Channels, value: int)
    requires p.natSender < |chs| && |p.senders| < HALF_WORD
    requires forall d :: d in p.senders ==> d < |chs| && d != p.natSender
    requires Reports(chs[p.natSender])
    requires Load(p, chs, value).Success?
    ensures var r := Load(p, chs, value).value;
      && r.0.senders == p.senders && r.0.natSender == p.natSender && |r.1| == |chs|
      && Reports(r.1[p.natSender])
  {
    var loaded := if p.idx == 0 then p.(cpuSend := AsUsize(value)) else p.(cache := p.cache + [value]);
    var counted := loaded.(idx := loaded.idx + 1);
    if counted.cpuSend == 255 && |counted.cache| == 2 {
      ReportToNat(chs, counted.natSender, counted.cache[0], counted.cache[1]);
    } else if |counted.cache| == 2 {
      assert counted.cpuSend < |counted.senders| && AsI64(counted.cpuSend) == counted.cpuSend;
      var dest := counted.senders[counted.cpuSend];
      assert dest in p.senders;
      ReportRouted(chs, dest, counted.natSender, counted.cpuSend, counted.cache);
    }
  }

  /** A packet for 255 lands in the NAT's queue as one report. */
  lemma ReportToNat(chs: Channels, n: nat, x: int, y: int)
    requires n < |chs| && Reports(chs[n])
    ensures var sent := Enqueued(Enqueued(Enqueued(chs, n, 255), n, x), n, y);
      |sent| == |chs| && Reports(sent[n])
  {
    var sent := Enqueued(Enqueued(Enqueued(chs, n, 255), n, x), n, y);
    assert sent[n] == chs[n] + [255, x, y];
    ReportsAppend(chs[n], [255, x, y]);
  }

  /** A packet for a computer is copied to the NAT's queue, after its destination, as one report. */
  lemma ReportRouted(chs: Channels, dest: nat, n: nat, address: nat, cache: seq<int>)
    requires dest < |chs| && n < |chs| && dest != n && Reports(chs[n]) && |cache| == 2 && address != -1
    ensures var sent := Flush(Enqueued(chs, n, address), dest, n, cache);
      |sent| == |chs| && Reports(sent[n])
  {
    var announced := Enqueued(chs, n, address);
    FlushDelivers(announced, dest, n, cache);
    assert announced[n] + cache == chs[n] + [address, cache[0], cache[1]];
    ReportsAppend(chs[n], [address, cache[0], cache[1]]);
  }

  /** A wired computer keeps its wiring, and the NAT's queue keeps holding whole reports, over every instruction. */
  lemma StepKeepsWiring(s: State)
    requires WiredState(s) && Step(s).Success?
    ensures |Step(s).value.1| == |s.1| && WiredState(Step(s).value)
  {
    StepBookkeeping(s);
    var t := Step(s).value;
    if AtOpcode(s.0, 3) {
      InputStep(s);
      ReceiveEffect(s.0.consumer, s.1);
      if |s.1[s.0.consumer.receiver]| == 0 || s.1[s.0.consumer.receiver][0] == -1 {
        ReportsAppend(s.1[NAT_QUEUE], [-1]);
      } else {
        assert s.1[NAT_QUEUE] + [] == s.1[NAT_QUEUE];
      }
    } else if AtOpcode(s.0, 4) {
      OutputStep(s);
      var value := Operand(Entered(s.0), 0, Mode(s.0, 1));
      LoadKeepsReports(s.0.producer, s.1, value);
    } else {
      StepKeepsEndpoints(s);
    }
  }

  /** `run_until_num_out` keeps a computer wired. */
  lemma UntilOutputsKeepsWiring(s: State, n: nat, fuel: nat)
    requires WiredState(s)
    requires UntilOutputs(s, n, fuel).Stopped?
    ensures |UntilOutputs(s, n, fuel).state.1| == |s.1| && WiredState(UntilOutputs(s, n, fuel).state)
  {
    var same := (t: State) => |t.1| == |s.1| && WiredState(t);
    forall t: State | same(t) && !HasOutput(n)(t) && Step(t).Success?
      ensures same(Step(t).value)
    {
      StepKeepsWiring(t);
    }
    RunPreserves(Step, HasOutput(n), same, s, fuel);
  }

  /**
   * One computer's turn in `execute_loop`: one instruction, and when it
   * was an output, more instructions until the packet's three values are
   * out. A turn the model's fuel does not cover is `FuelExhausted`.
   */
  function Turn(s: State, fuel: nat): Result<State> {
    var stepped :- Step(s);
    if stepped.0.previousInstruction != 4 then Success(stepped)
    else
      match UntilOutputs(stepped, 3, fuel)
      case Stopped(t) => Success(t)
      case OutOfFuel(_) => Failure(FuelExhausted)
      case Crashed(f) => Failure(f)
  }

  lemma TurnKeepsWiring(s: State, fuel: nat)
    requires WiredState(s) && Turn(s, fuel).Success?
    ensures |Turn(s, fuel).value.1| == |s.1| && WiredState(Turn(s, fuel).value)
  {
    StepKeepsWiring(s);
    var stepped := Step(s).value;
    if stepped.0.previousInstruction == 4 {
      UntilOutputsKeepsWiring(stepped, 3, fuel);
    }
  }

  /** The turns of all computers, first to last, each seeing the queues the one before left. */
  function Turns(ms: seq<Machine>, chs: Channels, fuel: nat): (r: Result<(seq<Machine>, Channels)>)
    ensures r.Success? ==> |r.value.0| == |ms|
  {
    if ms == [] then Success(([], chs))
    else
      var first :- Turn((ms[0], chs), fuel);
      var rest :- Turns(ms[1..], first.1, fuel);
      Success(([first.0] + rest.0, rest.1))
  }

  /** The turns already taken, `done`, ahead of the outcome of the ones left. */
  function After(done: seq<Machine>, r: Result<(seq<Machine>, Channels)>): Result<(seq<Machine>, Channels)> {
    match r
    case Success(v) => Success((done + v.0, v.1))
    case Failure(f) => Failure(f)
  }

  /** Taking turn `i` moves its computer from the turns left to the turns taken. */
  lemma TurnsAdvance(ms: seq<Machine>, i: nat, done: seq<Machine>, chs: Channels, fuel: nat)
    requires i < |ms|
    ensures match Turn((ms[i], chs), fuel)
      case Success(t) => After(done, Turns(ms[i..], chs, fuel)) == After(done + [t.0], Turns(ms[i + 1..], t.1, fuel))
      case Failure(f) => After(done, Turns(ms[i..], chs, fuel)) == Failure(f)
  {
    assert ms[i..][0] == ms[i] && ms[i..][1..] == ms[i + 1..];
    match Turn((ms[i], chs), fuel) {
      case Success(t) =>
        match Turns(ms[i + 1..], t.1, fuel) {
          case Success(v) =>
            assert done + ([t.0] + v.0) == done + [t.0] + v.0;
          case Failure(_) =>
        }
      case Failure(_) =>
    }
  }

  lemma TurnsFromStart(ms: seq<Machine>, chs: Channels, fuel: nat)
    ensures Turns(ms, chs, fuel) == After([], Turns(ms[0..], chs, fuel))
  {
    assert ms[0..] == ms;
    if Turns(ms, chs, fuel).Success? {
      assert [] + Turns(ms, chs, fuel).value.0 == Turns(ms, chs, fuel).value.0;
    }
  }

  lemma TurnsAtEnd(done: seq<Machine>, ms: seq<Machine>, chs: Channels, fuel: nat)
    ensures After(done, Turns(ms[|ms|..], chs, fuel)) == Success((done, chs))
  {
    assert ms[|ms|..] == [];
    assert done + [] == done;
  }

  /** Wired computers stay wired through a round of turns. */
  lemma {:induction false} TurnsKeepWiring(ms: seq<Machine>, chs: Channels, fuel: nat)
    requires NAT_QUEUE < |chs| && Reports(chs[NAT_QUEUE])
    requires forall i :: 0 <= i < |ms| ==> Wired(ms[i], |chs|)
    requires Turns(ms, chs, fuel).Success?
    ensures var r := Turns(ms, chs, fuel).value;
      && |r.1| == |chs| && Reports(r.1[NAT_QUEUE])
      && (forall i :: 0 <= i < |r.0| ==> Wired(r.0[i], |chs|))
  {
    if ms != [] {
      TurnKeepsWiring((ms[0], chs), fuel);
      var first := Turn((ms[0], chs), fuel).value;
      TurnsKeepWiring(ms[1..], first.1, fuel);
      var rest := Turns(ms[1..], first.1, fuel).value;
      var all := [first.0] + rest.0;
      forall i | 0 <= i < |all|
        ensures Wired(all[i], |chs|)
      {
        if i > 0 {
          assert all[i] == rest.0[i - 1];
        }
      }
    }
  }

  /** What one pass of `execute_loop` leaves: the computers, the queues, the NAT, and whether every computer has halted. */
  datatype Pass = Pass(machines: seq<Machine>, channels: Channels, natState: NatState, allFinished: bool)

  /** `execute_loop`: a round of turns, one `check_nat`, then the check that every computer has halted. */
  function Loop(ms: seq<Machine>, chs: Channels, n: NatState, fuel: nat): (r: Result<Pass>)
    ensures r.Success? ==> |r.value.machines| == |ms|
    ensures r.Success? ==> (r.value.allFinished <==> forall i :: 0 <= i < |ms| ==> r.value.machines[i].finished)
  {
    var turned :- Turns(ms, chs, fuel);
    var checked :- CheckedNat(n, turned.1);
    Success(Pass(turned.0, checked.1, checked.0, forall i :: 0 <= i < |turned.0| ==> turned.0[i].finished))
  }

  /** A network whose computers are all wired, with the NAT reading the NAT's queue and sending to a computer's. */
  ghost predicate NetworkWired(ms: seq<Machine>, chs: Channels, n: NatState) {
    && NAT_QUEUE < |chs| && Reports(chs[NAT_QUEUE])
    && (forall i :: 0 <= i < |ms| ==> Wired(ms[i], |chs|))
    && n.receiver == NAT_QUEUE && n.sender < |chs| && n.sender != NAT_QUEUE
  }

  /**
   * A wired network stays wired pass after pass, and its NAT never
   * panics: whatever fault ends a pass comes from a computer's turn.
   */
  lemma LoopKeepsWiring(ms: seq<Machine>, chs: Channels, n: NatState, fuel: nat)
    requires NetworkWired(ms, chs, n)
    ensures Loop(ms, chs, n, fuel).Failure? ==> Turns(ms, chs, fuel).Failure?
    ensures Loop(ms, chs, n, fuel).Success? ==>
      NetworkWired(Loop(ms, chs, n, fuel).value.machines, Loop(ms, chs, n, fuel).value.channels, Loop(ms, chs, n, fuel).value.natState)
  {
    if Turns(ms, chs, fuel).Success? {
      TurnsKeepWiring(ms, chs, fuel);
      var turned := Turns(ms, chs, fuel).value;
      DrainSucceeds(n, Queue(turned.1, n.receiver));
      var checked := CheckedNat(n, turned.1).value;
      assert Reports(checked.1[NAT_QUEUE]) by {
        assert checked.1[NAT_QUEUE] == [];
      }
    }
  }

  /** The queues a new network starts with: computer i's address waits in queue i, and the NAT's queue is empty. */
  function InitialChannels(): (chs: Channels)
    ensures |chs| == NUMBER_OF_COMPUTERS + 1
  {
    seq(NUMBER_OF_COMPUTERS + 1, i => if i < NUMBER_OF_COMPUTERS then [i] else [])
  }

  /** Computer `i` of a new network: the shared program, pausing on output, wired to queue i and the NAT. */
  function Booted(program: Memory, i: nat): Machine {
    Initial(program, ConsumerOf(i),
            FreshProducer(seq(NUMBER_OF_COMPUTERS, j => j), NAT_QUEUE)).(pauseExecution := true)
  }

  /** A new network is wired, and so every pass of it is. */
  lemma InitialNetworkIsWired(program: Memory)
    ensures NetworkWired(seq(NUMBER_OF_COMPUTERS, i requires 0 <= i => Booted(program, i)), InitialChannels(),
                         NatState(NAT_QUEUE, 0, 0, 0, 0))
  {
    assert InitialChannels()[NAT_QUEUE] == [];
    var senders := seq(NUMBER_OF_COMPUTERS, j => j);
    assert forall d :: d in senders ==> d < NUMBER_OF_COMPUTERS;
  }

  /** The mutable NAT. */
  class Nat {
    const receiver: nat
    const sender: nat
    var x: int
    var y: int
    var idleCount: nat

    function Model(): NatState
      reads this
    {
      NatState(receiver, sender, x, y, idleCount)
    }

    /** `initialise` */
    constructor Initialise(natReceiver: nat, natSender: nat)
      ensures Model() == NatState(natReceiver, natSender, 0, 0, 0)
    {
      receiver := natReceiver;
      sender := natSender;
      x := 0;
      y := 0;
      idleCount := 0;
    }

    /**
     * One pass of the `while let` loop of `check_nat`: `more` when a report
     * was read in full, and then draining goes on from the new state as it
     * would have from the old one.
     */
    method ReadReport(bus: Bus) returns (more: bool, fault: Option<Fault>)
      modifies this`x, this`y, this`idleCount, bus
      ensures var q := Queue(old(bus.channels), receiver);
        && (q == [] ==> !more && fault.None? && Model() == old(Model()) && bus.channels == Emptied(old(bus.channels), receiver))
        && (q != [] && !more ==> Drain(old(Model()), q).Failure? && fault == Some(Drain(old(Model()), q).fault))
        && (more ==> && fault.None? && q != [] && |Queue(bus.channels, receiver)| < |q|
                     && Drain(Model(), Queue(bus.channels, receiver)) == Drain(old(Model()), q)
                     && Emptied(bus.channels, receiver) == Emptied(old(bus.channels), receiver))
    {
      var received := bus.TryRecv(receiver);
      if received.None? {
        assert receiver < |bus.channels| ==> bus.channels[receiver := []] == bus.channels;
        return false, None;
      }
      more := true;
      fault := None;
      if received.value == -1 {
        idleCount := idleCount + 1;
      } else {
        var first := bus.TryRecv(receiver);
        if first.None? {
          return false, Some(EmptyChannel);
        }
        var second := bus.TryRecv(receiver);
        if second.None? {
          return false, Some(EmptyChannel);
        }
        if received.value == 255 {
          x := first.value;
          y := second.value;
        } else {
          idleCount := 0;
        }
      }
    }

    /** The `while let` loop of `check_nat`: the NAT's queue read to the end. */
    method DrainQueue(bus: Bus) returns (fault: Option<Fault>)
      modifies this`x, this`y, this`idleCount, bus
      ensures var r := Drain(old(Model()), Queue(old(bus.channels), receiver));
        && (fault.None? <==> r.Success?)
        && (r.Success? ==> Model() == r.value && bus.channels == Emptied(old(bus.channels), receiver))
        && (r.Failure? ==> fault == Some(r.fault))
    {
      var more := true;
      fault := None;
      while more
        invariant more ==> fault.None?
        invariant more ==> Drain(Model(), Queue(bus.channels, receiver)) == Drain(old(Model()), Queue(old(bus.channels), receiver))
        invariant more ==> Emptied(bus.channels, receiver) == Emptied(old(bus.channels), receiver)
        invariant !more ==> var r := Drain(old(Model()), Queue(old(bus.channels), receiver));
          && (fault.None? <==> r.Success?)
          && (r.Success? ==> Model() == r.value && bus.channels == Emptied(old(bus.channels), receiver))
          && (r.Failure? ==> fault == Some(r.fault))
        decreases more, |Queue(bus.channels, receiver)|
      {
        more, fault := ReadReport(bus);
      }
    }

    /** `check_nat`: `fault` is the panic of a packet cut short. */
    method CheckNat(bus: Bus) returns (fault: Option<Fault>)
      modifies this, bus
      ensures var r := CheckedNat(old(Model()), old(bus.channels));
        && (fault.None? <==> r.Success?)
        && (r.Success? ==> Model() == r.value.0 && bus.channels == r.value.1)
        && (r.Failure? ==> fault == Some(r.fault))
    {
      fault := DrainQueue(bus);
      if fault.Some? {
        return;
      }
      if idleCount > IDLE_LIMIT {
        bus.Send(sender, x);
        bus.Send(sender, y);
        idleCount := 0;
      }
    }
  }

  /** One computer's turn in `execute_loop`: `fault` is the panic that ends the program, if any. */
  method TakeTurn(cpu: Cpu, bus: Bus, fuel: nat) returns (fault: Option<Fault>)
    modifies cpu`memory, cpu`idx, cpu`out, cpu`numOutput, cpu`relativeOffset, cpu`finished,
             cpu`previousInstruction, cpu.outputProducer, bus
    ensures var r := Turn((old(cpu.Model()), old(bus.channels)), fuel);
      && (fault.None? <==> r.Success?)
      && (r.Success? ==> cpu.Model() == r.value.0 && bus.channels == r.value.1)
      && (r.Failure? ==> fault == Some(r.fault))
  {
    fault := cpu.ExecuteInstruction(bus);
    if fault.Some? {
      return;
    }
    var previous := cpu.GetPreviousInstruction();
    if previous == 4 {
      var status := cpu.RunUntilNumOut(3, bus, fuel);
      match status {
        case Returned =>
        case Unfinished => fault := Some(FuelExhausted);
        case Panicked(f) => fault := Some(f);
      }
    }
  }

  /** The network: the computers, in address order. */
  class Network {
    var cpus: seq<Cpu>

    /** Each computer, and each computer's producer, is an object of its own. */
    ghost predicate Valid()
      reads this, cpus
    {
      Distinct(cpus) && Distinct(ProducersOf(cpus))
    }

    ghost function Producers(): set<ConnectProducer>
      reads this, cpus
    {
      set i | 0 <= i < |cpus| :: cpus[i].outputProducer
    }

    /** The computers' values, in address order. */
    ghost function Models(): (ms: seq<Machine>)
      reads this, cpus, Producers()
      ensures |ms| == |cpus| && forall i :: 0 <= i < |cpus| ==> ms[i] == cpus[i].Model()
    {
      ModelsOf(cpus)
    }

    constructor (computers: seq<Cpu>)
      ensures cpus == computers
    {
      cpus := computers;
    }

    /** The turn of computer `i`; no other computer changes. */
    method TakeTurnOf(i: nat, bus: Bus, fuel: nat) returns (fault: Option<Fault>)
      requires Valid() && i < |cpus|
      modifies cpus[i], cpus[i].outputProducer, bus
      ensures ProducersOf(cpus) == old(ProducersOf(cpus))
      ensures forall j :: 0 <= j < |cpus| && j != i ==> cpus[j].Model() == old(cpus[j].Model())
      ensures var r := Turn((old(cpus[i].Model()), old(bus.channels)), fuel);
        && (fault.None? <==> r.Success?)
        && (r.Success? ==> cpus[i].Model() == r.value.0 && bus.channels == r.value.1)
        && (r.Failure? ==> fault == Some(r.fault))
    {
      assert forall j :: 0 <= j < |cpus| && j != i ==> cpus[j] != cpus[i] && ProducersOf(cpus)[j] != ProducersOf(cpus)[i];
      fault := TakeTurn(cpus[i], bus, fuel);
    }

    /**
     * Computers before `i` hold the values `done` the first `i` turns of
     * `Turns(start, chs, fuel)` left, the others still hold their start
     * values, and the rest of the round is what remains of it.
     */
    ghost predicate TurnedUpTo(i: nat, start: seq<Machine>, done: seq<Machine>, chs: Channels, bus: Bus, fuel: nat)
      reads this, cpus, Producers(), bus
    {
      && i <= |cpus| == |start| && |done| == i
      && (forall j :: 0 <= j < i ==> cpus[j].Model() == done[j])
      && (forall j :: i <= j < |cpus| ==> cpus[j].Model() == start[j])
      && Turns(start, chs, fuel) == After(done, Turns(start[i..], bus.channels, fuel))
    }

    /** The turn of computer `i` within a round, carrying the round's bookkeeping one computer on. */
    method TurnStep(i: nat, bus: Bus, fuel: nat, ghost start: seq<Machine>, ghost done: seq<Machine>, ghost chs: Channels)
      returns (fault: Option<Fault>, ghost next: seq<Machine>)
      requires Valid() && i < |cpus| && TurnedUpTo(i, start, done, chs, bus, fuel)
      modifies cpus[i], cpus[i].outputProducer, bus
      ensures ProducersOf(cpus) == old(ProducersOf(cpus))
      ensures fault.None? ==> TurnedUpTo(i + 1, start, next, chs, bus, fuel)
      ensures fault.Some? ==> Turns(start, chs, fuel) == Failure(fault.value)
    {
      ghost var turn := Turn((start[i], bus.channels), fuel);
      TurnsAdvance(start, i, done, bus.channels, fuel);
      fault := TakeTurnOf(i, bus, fuel);
      next := if fault.None? then done + [turn.value.0] else done;
    }

    /** The first loop of `execute_loop`: every computer takes its turn, in address order. */
    method TakeTurns(bus: Bus, fuel: nat) returns (fault: Option<Fault>)
      requires Valid()
      modifies set i | 0 <= i < |cpus| :: cpus[i], Producers(), bus
      ensures ProducersOf(cpus) == old(ProducersOf(cpus))
      ensures var r := Turns(old(Models()), old(bus.channels), fuel);
        && (fault.None? <==> r.Success?)
        && (r.Success? ==> && (forall j :: 0 <= j < |cpus| ==> cpus[j].Model() == r.value.0[j])
                           && bus.channels == r.value.1)
        && (r.Failure? ==> fault == Some(r.fault))
    {
      ghost var start := Models();
      ghost var chs := bus.channels;
      ghost var done: seq<Machine> := [];
      RoundStarts(bus, fuel);
      fault := None;
      for i := 0 to |cpus|
        invariant fault.None?
        invariant ProducersOf(cpus) == old(ProducersOf(cpus))
        invariant TurnedUpTo(i, start, done, chs, bus, fuel)
      {
        fault, done := TurnStep(i, bus, fuel, start, done, chs);
        if fault.Some? {
          return;
        }
      }
      RoundEnds(start, done, chs, bus, fuel);
    }

    /** Before the first turn, no computer has moved and the whole round is ahead. */
    lemma RoundStarts(bus: Bus, fuel: nat)
      ensures TurnedUpTo(0, Models(), [], bus.channels, bus, fuel)
    {
      TurnsFromStart(Models(), bus.channels, fuel);
    }

    /** After the last turn, the computers hold what the round computed. */
    lemma RoundEnds(start: seq<Machine>, done: seq<Machine>, chs: Channels, bus: Bus, fuel: nat)
      requires TurnedUpTo(|cpus|, start, done, chs, bus, fuel)
      ensures var r := Turns(start, chs, fuel);
        && r.Success? && bus.channels == r.value.1
        && forall j :: 0 <= j < |cpus| ==> cpus[j].Model() == r.value.0[j]
    {
      TurnsAtEnd(done, start, bus.channels, fuel);
    }

    /** The last loop of `execute_loop`: whether every computer has halted. */
    method AllFinished() returns (allFinished: bool)
      ensures allFinished <==> forall i :: 0 <= i < |cpus| ==> cpus[i].Model().finished
    {
      allFinished := true;
      for i := 0 to |cpus|
        invariant allFinished <==> forall j :: 0 <= j < i ==> cpus[j].Model().finished
      {
        var halted := cpus[i].HasFinished();
        if !halted {
          allFinished := false;
        }
      }
    }

    /** The first two steps of `execute_loop`: a round of turns, then `check_nat`. */
    method TurnsThenNat(natNode: Nat, bus: Bus, fuel: nat) returns (fault: Option<Fault>)
      requires Valid()
      modifies set i | 0 <= i < |cpus| :: cpus[i], Producers(), natNode, bus
      ensures var r := Loop(old(Models()), old(bus.channels), old(natNode.Model()), fuel);
        && (fault.None? <==> r.Success?)
        && (r.Success? ==> && (forall j :: 0 <= j < |cpus| ==> cpus[j].Model() == r.value.machines[j])
                           && bus.channels == r.value.channels && natNode.Model() == r.value.natState)
        && (r.Failure? ==> fault == Some(r.fault))
    {
      ghost var turned := Turns(Models(), bus.channels, fuel);
      fault := TakeTurns(bus, fuel);
      if fault.Some? {
        return;
      }
      fault := natNode.CheckNat(bus);
      if fault.Some? {
        return;
      }
      assert forall j :: 0 <= j < |cpus| ==> cpus[j].Model() == turned.value.0[j];
    }

    /** `execute_loop`, each `run_until_num_out` bounded by `fuel` instructions. */
    method ExecuteLoop(natNode: Nat, bus: Bus, fuel: nat) returns (allFinished: bool, fault: Option<Fault>)
      requires Valid()
      modifies set i | 0 <= i < |cpus| :: cpus[i], Producers(), natNode, bus
      ensures var r := Loop(old(Models()), old(bus.channels), old(natNode.Model()), fuel);
        && (fault.None? <==> r.Success?)
        && (r.Success? ==> && (forall j :: 0 <= j < |cpus| ==> cpus[j].Model() == r.value.machines[j])
                           && bus.channels == r.value.channels
                           && natNode.Model() == r.value.natState && allFinished == r.value.allFinished)
        && (r.Failure? ==> fault == Some(r.fault))
    {
      allFinished := false;
      fault := TurnsThenNat(natNode, bus, fuel);
      if fault.Some? {
        return;
      }
      allFinished := AllFinished();
    }
  }

  /** No element occurs twice. */
  predicate Distinct<T(==)>(s: seq<T>) {
    forall i, j :: 0 <= i < j < |s| ==> s[i] != s[j]
  }

  ghost function ProducersOf(cs: seq<Cpu>): (ps: seq<ConnectProducer>)
    reads cs
    ensures |ps| == |cs| && forall i :: 0 <= i < |cs| ==> ps[i] == cs[i].outputProducer
  {
    if cs == [] then [] else [cs[0].outputProducer] + ProducersOf(cs[1..])
  }

  ghost function ModelsOf(cs: seq<Cpu>): (ms: seq<Machine>)
    reads cs, set i | 0 <= i < |cs| :: cs[i].outputProducer
    ensures |ms| == |cs| && forall i :: 0 <= i < |cs| ==> ms[i] == cs[i].Model()
  {
    if cs == [] then [] else [cs[0].Model()] + ModelsOf(cs[1..])
  }

  /** The consumer of computer `i`: its own queue, the NAT's queue, its address. */
  function ConsumerOf(i: nat): ConnectConsumer {
    ConnectConsumer(i, NAT_QUEUE, i)
  }

  /** The first loop of `initialise_network`: a queue per computer holding its address, a sender and a consumer for it. */
  method WireComputers() returns (channels: Channels, senders: seq<nat>, consumers: seq<ConnectConsumer>)
    ensures channels + [[]] == InitialChannels()
    ensures senders == seq(NUMBER_OF_COMPUTERS, j => j)
    ensures |consumers| == NUMBER_OF_COMPUTERS && forall i :: 0 <= i < NUMBER_OF_COMPUTERS ==> consumers[i] == ConsumerOf(i)
  {
    channels, senders, consumers := [], [], [];
    for idx := 0 to NUMBER_OF_COMPUTERS
      invariant |channels| == idx && forall i :: 0 <= i < idx ==> channels[i] == [i]
      invariant senders == seq(idx, j => j)
      invariant |consumers| == idx && forall i :: 0 <= i < idx ==> consumers[i] == ConsumerOf(i)
    {
      channels := channels + [[idx]];
      senders := senders + [idx];
      consumers := consumers + [ConsumerOf(idx)];
    }
  }

  /** One computer of `initialise_network`: its producer, the computer itself, set to pause on output. */
  method BootComputer(program: Memory, senders: seq<nat>, consumer: ConnectConsumer) returns (cpu: Cpu)
    ensures fresh(cpu) && fresh(cpu.outputProducer)
    ensures cpu.Model() == Initial(program, consumer, FreshProducer(senders, NAT_QUEUE)).(pauseExecution := true)
  {
    var producer := new ConnectProducer.Initialise(senders, NAT_QUEUE);
    cpu := new Cpu.Initialise(program, consumer, producer);
    cpu.PauseExecutionOnOutput(true);
  }

  /** The second loop of `initialise_network`: a computer per consumer, each with a producer of its own, pausing on output. */
  method BootComputers(program: Memory, senders: seq<nat>, consumers: seq<ConnectConsumer>) returns (cpus: seq<Cpu>)
    requires senders == seq(NUMBER_OF_COMPUTERS, j => j)
    requires |consumers| == NUMBER_OF_COMPUTERS && forall i :: 0 <= i < NUMBER_OF_COMPUTERS ==> consumers[i] == ConsumerOf(i)
    ensures |cpus| == NUMBER_OF_COMPUTERS
    ensures forall j :: 0 <= j < |cpus| ==> fresh(cpus[j]) && fresh(cpus[j].outputProducer)
    ensures forall j :: 0 <= j < |cpus| ==> cpus[j].Model() == Booted(program, j)
    ensures forall j, k :: 0 <= j < |cpus| && 0 <= k < |cpus| && j != k ==>
      cpus[j] != cpus[k] && cpus[j].outputProducer != cpus[k].outputProducer
  {
    cpus := [];
    var remaining := consumers;
    for i := 0 to NUMBER_OF_COMPUTERS
      invariant |cpus| == i && |remaining| == NUMBER_OF_COMPUTERS - i
      invariant forall j :: 0 <= j < |remaining| ==> remaining[j] == ConsumerOf(i + j)
      invariant forall j :: 0 <= j < i ==> fresh(cpus[j]) && fresh(cpus[j].outputProducer)
      invariant forall j :: 0 <= j < i ==> cpus[j].Model() == Booted(program, j)
      invariant forall j, k :: 0 <= j < i && 0 <= k < i && j != k ==>
        cpus[j] != cpus[k] && cpus[j].outputProducer != cpus[k].outputProducer
    {
      var cpu := BootComputer(program, senders, remaining[0]);
      remaining := remaining[1..];
      cpus := cpus + [cpu];
    }
  }

  /** `initialise_network` once the program is parsed: the bus, the NAT and the network of booted computers. */
  method Assemble(program: Memory) returns (network: Network, natNode: Nat, bus: Bus)
    ensures fresh(network) && fresh(natNode) && fresh(bus)
    ensures network.Valid() && |network.cpus| == NUMBER_OF_COMPUTERS
    ensures forall i :: 0 <= i < NUMBER_OF_COMPUTERS ==> network.cpus[i].Model() == Booted(program, i)
    ensures bus.channels == InitialChannels()
    ensures natNode.Model() == NatState(NAT_QUEUE, 0, 0, 0, 0)
  {
    var channels, senders, consumers := WireComputers();
    bus := new Bus(channels + [[]]);
    natNode := new Nat.Initialise(NAT_QUEUE, 0);
    var cpus := BootComputers(program, senders, consumers);
    network := new Network(cpus);
    assert Distinct(ProducersOf(cpus));
  }

  /**
   * `initialise_network`: parse the program, give every computer its
   * address as its first input, wire the computers and the NAT together
   * and set every computer to pause on output. Malformed program text
   * is a panic.
   */
  method InitialiseNetwork(data: string) returns (r: Result<(Network, Nat, Bus)>)
    ensures r.Success? <==> ProcessInput(data).Success?
    ensures r.Failure? ==> r.fault == MalformedProgram
    ensures r.Success? ==>
      var (network, natNode, bus) := r.value;
      && fresh(network) && fresh(natNode) && fresh(bus)
      && network.Valid() && |network.cpus| == NUMBER_OF_COMPUTERS
      && (forall i :: 0 <= i < NUMBER_OF_COMPUTERS ==> network.cpus[i].Model() == Booted(ProcessInput(data).value, i))
      && bus.channels == InitialChannels()
      && natNode.Model() == NatState(NAT_QUEUE, 0, 0, 0, 0)
  {
    var parsed := ProcessInput(data);
    if parsed.Failure? {
      return Failure(parsed.fault);
    }
    var network, natNode, bus := Assemble(parsed.value);
    return Success((network, natNode, bus));
  }
}
