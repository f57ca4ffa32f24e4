/**
 The memory manager and its clients on top of the IPC kernel. User processes call a
 server with send_recv(BOTH): they send, then receive from it. Servers receive from
 ANY and answer; the file system may in turn call a server of lower number, as it calls
 the disk task. Any of this may be interleaved in any way, one system call at a time.
 */
module World {
  import opened ProcTable
  import opened Segments
  import opened IpcSpec
  import opened Family

  /**
   Where a caller is in its call of a server: outside; blocked in the send; past
   it, with the request taken; blocked in the receive; past the send, with the answer
   waiting.
   */
  datatype Phase = Idle | Sending(server: int) | Accepted(server: int) | Blocked(server: int) | Answering(server: int)

  datatype Hand = Empty | Request(from: int, m: Message)

  /** The history of calls and of the process family. */
  datatype Note =
    | Called(client: int, server: int, m: Message)
    | Answered(server: int, client: int, m: Message)
    | Born(child: int, parent: int)
    | Died(pid: int, status: int)
    | Reaped(child: int, to: int, status: int)
    | Freed(pid: int)

  /**
   hand is the request the memory manager has received but not handled; actions is what it has still to do for one.
   */
  datatype World = World(
    s: State,
    phase: seq<Phase>,
    hand: Hand,
    actions: seq<Action>,
    memorySize: int,
    notes: seq<Note>)

  datatype WorldOutcome = Goes(w: World) | Halts

  predicate IsUser(i: int) {
    NR_TASKS <= i < N
  }

  predicate IsServer(v: int) {
    TASK_TTY < v < NR_TASKS
  }

  predicate IsForked(i: int) {
    FIRST_FORKED <= i < N
  }

  predicate IsCaller(c: int) {
    IsUser(c) || c == TASK_FS
  }

  /** Users call any server; the file system calls servers below itself. */
  predicate MayCall(c: int, v: int) {
    IsServer(v) && (IsUser(c) || (c == TASK_FS && v < c))
  }

  predicate Owed(ph: Phase, v: int) {
    ph == Accepted(v) || ph == Blocked(v)
  }

  /** The requests that clients make: only forked processes exit. */
  predicate Serviceable(m: Message, c: int) {
    m.kind == FORK || m.kind == WAIT || (m.kind == EXIT && IsForked(c))
  }

  predicate ShapedWorld(w: World) {
    Shaped(w.s) && |w.phase| == N
  }

  datatype Move =
    | UserStore(a: int, m: Message)
    | Call(v: int, a: int)
    | AwaitAnswer(a: int)
    | Accept(src: int, a: int)
    | Reply(c: int, a: int)
    | Handle
    | Perform(a: int)
    | DiskIrq
    | ClockTick(nested: bool)
    | Doze(ms: int)

  /** The discipline of the clients and of the servers' main loops. */
  ghost predicate Allowed(w: World, e: Move)
    requires ShapedWorld(w)
  {
    var c := w.s.ready;
    match e
    case UserStore(_, _) => true
    case Call(v, a) =>
      MayCall(c, v) && w.phase[c] == Idle && a != 0 && (v == TASK_MM ==> Serviceable(Load(w.s.mem[c], a), c))
    case AwaitAnswer(a) => IsCaller(c) && (w.phase[c].Accepted? || w.phase[c].Answering?) && a != 0
    case Accept(src, a) =>
      IsServer(c) && w.phase[c] == Idle && (src == ANY || src == INTERRUPT) && a != 0 &&
      (c == TASK_MM ==> src == ANY && w.hand == Empty && w.actions == [])
    case Reply(d, a) => IsServer(c) && c != TASK_MM && w.phase[c] == Idle && IsCaller(d) && Owed(w.phase[d], c)
      && a != 0
    case Handle =>
      c == TASK_MM && w.actions == [] && w.hand.Request? && IsUser(w.hand.from) &&
      (w.hand.m.kind == FORK && FirstFree(w.s.procs, 0) < N ==> w.s.procs[w.hand.from].flags.receiving)
    case Perform(a) => c == TASK_MM && w.actions != [] && a != 0
    case DiskIrq => true
    case ClockTick(_) => true
    case Doze(_) => IsUser(c) && w.phase[c] == Idle
  }

  function Lift(w: World, o: Outcome): WorldOutcome {
    match o
    case Done(s) => Goes(w.(s := s))
    case _ => Halts
  }

  /** What the running process is sending, with the source field that the kernel stamps into it. */
  function Outgoing(s: State, a: int): Message
    requires Shaped(s)
  {
    Load(s.mem[s.ready], a).(source := s.ready)
  }

  /** A message is on its way from client c: the server takes it at once if it is waiting for one. */
  ghost function CallStep(w: World, v: int, a: int): WorldOutcome
    requires ShapedWorld(w) && IsServer(v)
  {
    var c := w.s.ready;
    var taken := Awaits(w.s.procs[v], c);
    Lift(w.(phase := w.phase[c := if taken then Accepted(v) else Sending(v)],
         hand := if taken && v == TASK_MM then Request(c, Outgoing(w.s, a)) else w.hand,
         notes := w.notes + [Called(c, v, Outgoing(w.s, a))]),
         SysSend(w.s, v, a))
  }

  ghost function AwaitStep(w: World, a: int): WorldOutcome
    requires ShapedWorld(w) && (w.phase[w.s.ready].Accepted? || w.phase[w.s.ready].Answering?)
    requires IsServer(w.phase[w.s.ready].server)
  {
    var c := w.s.ready;
    var v := w.phase[c].server;
    Lift(w.(phase := w.phase[c := if w.phase[c].Answering? then Idle else Blocked(v)]), SysReceive(w.s, v, a))
  }

  /** The sender that a receive from ANY or INTERRUPT serves, or NIL. */
  function Served(s: State, src: int): int
    requires Shaped(s)
  {
    if src == ANY && !s.procs[s.ready].hasInt then Source(s, src) else NIL
  }

  ghost function AcceptStep(w: World, src: int, a: int): WorldOutcome
    requires ShapedWorld(w) && (src == ANY || src == INTERRUPT)
  {
    var v := w.s.ready;
    var f := Served(w.s, src);
    Lift(if IsPid(f)
         then w.(phase := w.phase[f := Accepted(v)],
                 hand := if v == TASK_MM then Request(f, Load(w.s.mem[f], w.s.procs[f].msg)) else w.hand)
         else w,
         SysReceive(w.s, src, a))
  }

  /** The running server sends an answer to d. */
  ghost function AnswerStep(w: World, d: int, a: int): WorldOutcome
    requires ShapedWorld(w) && IsCaller(d)
  {
    var v := w.s.ready;
    Lift(w.(phase := w.phase[d := if Awaits(w.s.procs[d], v) then Idle else Answering(v)],
         notes := w.notes + [Answered(v, d, Outgoing(w.s, a))]),
         SysSend(w.s, d, a))
  }

  /** One pass of task_mm's switch. */
  ghost function HandleStep(w: World): WorldOutcome
    requires ShapedWorld(w) && w.hand.Request? && IsUser(w.hand.from) && NativesStay(w.s.procs)
  {
    var pid := w.hand.from;
    var m := w.hand.m;
    var ps := w.s.procs;
    var done := w.(hand := Empty);
    if m.kind == FORK then
      var o := Fork(ps, w.s.mem, pid, w.memorySize);
      match o
      case Forked(child, ps', mem') =>
        Goes(done.(s := w.s.(procs := ps', mem := mem'),
             phase := w.phase[child := Blocked(TASK_MM)],
             actions := ForkActions(o, pid, m),
             notes := w.notes + [Born(child, pid)]))
      case NoSlot => Goes(done.(actions := ForkActions(o, pid, m)))
      case _ => Halts
    else if m.kind == EXIT then
      if !IsPid(ps[pid].parent) then Halts
      else
        var h := Exit(ps, pid, m.i1);
        Goes(done.(s := w.s.(procs := h.procs), actions := h.actions, notes := w.notes + [Died(pid, m.i1)]))
    else if m.kind == WAIT then
      var h := Wait(ps, pid);
      Goes(done.(s := w.s.(procs := h.procs), actions := h.actions))
    else Halts
  }

  /** The memory manager performs the first of its actions. */
  ghost function PerformStep(w: World, a: int): WorldOutcome
    requires ShapedWorld(w) && w.actions != []
  {
    var rest := w.(actions := w.actions[1..]);
    match w.actions[0]
    case Answer(to, m) =>
      if IsUser(to) then AnswerStep(rest.(s := Store(w.s, w.s.ready, a, m)), to, a) else Halts
    case Reap(child, to, m) =>
      if IsUser(to) then
        AnswerStep(rest.(s := Store(w.s, w.s.ready, a, m), notes := w.notes + [Reaped(child, to, m.i1)]), to, a)
      else Halts
    case Release(child) =>
      if IsUser(child) then
        Goes(rest.(s := w.s.(procs := w.s.procs[child := Vacated(w.s.procs[child])]),
             phase := w.phase[child := Idle],
             notes := w.notes + [Freed(child)]))
      else Halts
  }
}
