/**
 The meaning of the IPC system calls, the interrupt notification and the clock,
 as functions on a state whose per-destination queues are plain sequences.
 Kernel.dfy proves that the linked-list code computes these functions.
 */
module IpcSpec {
  import opened ProcTable
  import opened SchedSpec

  /** What the log records: a message posted, a message taken, an interrupt taken. */
  datatype Entry =
    | Posted(from: int, to: int, m: Message)
    | Taken(receiver: int, from: int, m: Message)
    | Interrupted(receiver: int)

  /**
   procs is the table, queues what its links thread;
   mem holds each process's messages; trace is the log of everything sent and received.
   */
  datatype State = State(
    procs: seq<Proc>,
    queues: seq<seq<int>>,
    mem: seq<Memory>,
    ready: int,
    now: int,
    trace: seq<Entry>)

  /** A call either completes, or stops the machine in panic() or at a failed assert(). */
  datatype Outcome = Done(s: State) | Panic | AssertFail

  // ---------------------------------------------------------------- queues

  predicate NoDup(q: seq<int>) {
    forall i, j :: 0 <= i < j < |q| ==> q[i] != q[j]
  }

  function IndexOf(q: seq<int>, x: int): (k: nat)
    requires x in q
    ensures k < |q| && q[k] == x
    ensures forall j :: 0 <= j < k ==> q[j] != x
  {
    if q[0] == x then 0 else 1 + IndexOf(q[1..], x)
  }

  function Without(q: seq<int>, x: int): seq<int>
    requires x in q
  {
    var k := IndexOf(q, x);
    q[..k] + q[k + 1..]
  }

  // ---------------------------------------------------------------- wait-for graph

  /** Where the chain of blocked senders that starts at a stands after n steps; NIL past its end. */
  function Hop(ps: seq<Proc>, a: int, n: nat): int
    decreases n
  {
    if n == 0 then a
    else if 0 <= a < |ps| && ps[a].flags.sending then Hop(ps, ps[a].sendTo, n - 1)
    else NIL
  }

  ghost predicate Reaches(ps: seq<Proc>, a: int, b: int) {
    exists n: nat :: Hop(ps, a, n) == b
  }

  /** If a is blocked in a send, the process it waits for has a lower rank. */
  predicate Descends(ps: seq<Proc>, rank: seq<nat>, a: int)
    requires |rank| == |ps| && 0 <= a < |ps|
  {
    ps[a].flags.sending ==> 0 <= ps[a].sendTo < |ps| && rank[ps[a].sendTo] < rank[a]
  }

  ghost predicate RankOk(ps: seq<Proc>, rank: seq<nat>) {
    |rank| == |ps| && forall a {:trigger Descends(ps, rank, a)} :: 0 <= a < |ps| ==> Descends(ps, rank, a)
  }

  /** Every blocked sender can be ranked above the process it waits for. */
  ghost predicate Acyclic(ps: seq<Proc>) {
    exists rank: seq<nat> :: RankOk(ps, rank)
  }

  // ---------------------------------------------------------------- system calls

  /** p is blocked in a receive that a message from src completes. */
  predicate Awaits(p: Proc, src: int) {
    p.flags.receiving && (p.recvFrom == src || p.recvFrom == ANY)
  }

  predicate AwaitsInterrupt(p: Proc) {
    p.flags.receiving && (p.recvFrom == INTERRUPT || p.recvFrom == ANY)
  }

  ghost function Reschedule(s: State): State {
    var ps := Scheduled(s.procs, s.now);
    s.(procs := ps, ready := Pick(ps))
  }

  /** User code of process c storing a message in its own memory. */
  function Store(s: State, c: int, a: int, m: Message): State
    requires 0 <= c < |s.mem|
  {
    s.(mem := s.mem[c := s.mem[c][a := m]])
  }

  /** On entry to sys_sendrec the kernel writes the caller's number into the message. */
  function Stamp(s: State, a: int): State
    requires 0 <= s.ready < |s.mem|
  {
    Store(s, s.ready, a, Load(s.mem[s.ready], a).(source := s.ready))
  }

  function Received(p: Proc): Proc {
    p.(msg := 0, flags := p.flags.(receiving := false), recvFrom := NO_TASK)
  }

  function Sent(p: Proc): Proc {
    p.(msg := 0, flags := p.flags.(sending := false), sendTo := NO_TASK)
  }

  function Rendezvous(s: State, c: int, dest: int, a: int): State
    requires |s.procs| == |s.mem| && 0 <= c < |s.procs| && 0 <= dest < |s.procs|
  {
    var m := Load(s.mem[c], a);
    Store(s, dest, s.procs[dest].msg, m).(
    procs := s.procs[dest := Received(s.procs[dest])],
    trace := s.trace + [Posted(c, dest, m), Taken(dest, c, m)])
  }

  function Enqueue(s: State, c: int, dest: int, a: int): State
    requires |s.procs| == |s.mem| == |s.queues| && 0 <= c < |s.procs| && 0 <= dest < |s.procs|
  {
    s.(procs := s.procs[c := s.procs[c].(flags := s.procs[c].flags.(sending := true), sendTo := dest, msg := a)],
    queues := s.queues[dest := s.queues[dest] + [c]],
    trace := s.trace + [Posted(c, dest, Load(s.mem[c], a))])
  }

  predicate Shaped(s: State) {
    |s.procs| == N && |s.queues| == N && |s.mem| == N && IsPid(s.ready)
  }

  /** msg_send: the running process sends the message at address a to dest. */
  ghost function Send(s: State, dest: int, a: int): Outcome
    requires Shaped(s) && IsPid(dest)
  {
    var c := s.ready;
    if c == dest then AssertFail
    else if Reaches(s.procs, dest, c) then Panic
    else if Awaits(s.procs[dest], c) then
      if s.procs[dest].flags == RECEIVING then Done(Rendezvous(s, c, dest, a)) else AssertFail
    else Done(Reschedule(Enqueue(s, c, dest, a)))
  }

  /** The blocked sender that a receive from src serves, or NIL. */
  function Source(s: State, src: int): (f: int)
    requires Shaped(s)
  {
    var c := s.ready;
    if src == ANY then (if s.queues[c] == [] then NIL else s.queues[c][0])
    else if IsPid(src) && s.procs[src].flags.sending && s.procs[src].sendTo == c then src
    else NIL
  }

  function TakeInterrupt(s: State, a: int): State
    requires Shaped(s)
  {
    var c := s.ready;
    Store(s, c, a, Message(INTERRUPT, HARD_INT, 0, 0)).(
    procs := s.procs[c := s.procs[c].(hasInt := false)],
    trace := s.trace + [Interrupted(c)])
  }

  function Take(s: State, f: int, a: int): State
    requires Shaped(s) && IsPid(f) && f in s.queues[s.ready]
  {
    var c := s.ready;
    var m := Load(s.mem[f], s.procs[f].msg);
    Store(s, c, a, m).(
    procs := s.procs[f := Sent(s.procs[f])],
    queues := s.queues[c := Without(s.queues[c], f)],
    trace := s.trace + [Taken(c, f, m)])
  }

  function Await(s: State, src: int, a: int): State
    requires Shaped(s)
  {
    var c := s.ready;
    s.(procs := s.procs[c := s.procs[c].(flags := s.procs[c].flags.(receiving := true), msg := a, recvFrom := src)])
  }

  predicate ValidSource(src: int) {
    IsPid(src) || src == ANY || src == INTERRUPT
  }

  /** msg_recevie: the running process receives from src into address a. */
  ghost function Receive(s: State, src: int, a: int): Outcome
    requires Shaped(s) && ValidSource(src)
  {
    var c := s.ready;
    var f := Source(s, src);
    if c == src then AssertFail
    else if s.procs[c].hasInt && !IsPid(src) then Done(TakeInterrupt(s, a))
    else if IsPid(f) && f in s.queues[c] then Done(Take(s, f, a))
    else if s.procs[c].hasInt then AssertFail
    else Done(Reschedule(Await(s, src, a)))
  }

  /** sys_sendrec with SEND. */
  ghost function SysSend(s: State, dest: int, a: int): Outcome
    requires Shaped(s) && IsPid(dest)
  {
    Send(Stamp(s, a), dest, a)
  }

  /** sys_sendrec with RECEIVE. */
  ghost function SysReceive(s: State, src: int, a: int): Outcome
    requires Shaped(s) && ValidSource(src)
  {
    Receive(Stamp(s, a), src, a)
  }

  /** A hardware interrupt for task p. */
  function Interrupt(s: State, p: int): Outcome
    requires Shaped(s) && IsPid(p)
  {
    if AwaitsInterrupt(s.procs[p]) then
      if s.procs[p].flags == RECEIVING then
        Done(Store(s, p, s.procs[p].msg, Load(s.mem[p], s.procs[p].msg).(source := INTERRUPT, kind := HARD_INT)).(
             procs := s.procs[p := Received(s.procs[p]).(hasInt := false)],
             trace := s.trace + [Interrupted(p)]))
      else AssertFail
    else Done(s.(procs := s.procs[p := s.procs[p].(hasInt := true)]))
  }

  function CountTick(s: State): State
    requires Shaped(s)
  {
    var p := s.procs[s.ready];
    s.(now := s.now + 1, procs := s.procs[s.ready := p.(ticks := p.ticks - 1)])
  }

  /** A clock interrupt; a nested one only counts. */
  ghost function Tick(s: State, nested: bool): State
    requires Shaped(s)
  {
    var t := CountTick(s);
    if nested || t.procs[s.ready].ticks > 0 then t else Reschedule(t)
  }

  /** C's division: towards zero. */
  function TruncDiv(x: int, y: int): int
    requires y > 0
  {
    if x >= 0 then x / y else -(-x / y)
  }

  function SleepTicks(ms: int): int {
    TruncDiv(Wrap32(ms * HZ), 1000)
  }

  function FallAsleep(s: State, ms: int): State
    requires Shaped(s)
  {
    var p := s.procs[s.ready];
    s.(procs := s.procs[s.ready := p.(flags := p.flags.(sleeping := true), wakeUp := s.now + SleepTicks(ms))])
  }

  ghost function Sleep(s: State, ms: int): State
    requires Shaped(s)
  {
    Reschedule(FallAsleep(s, ms))
  }
}
