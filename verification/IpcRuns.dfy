/**
 Theorems over whole runs of the IPC kernel: any interleaving of sends, receives,
 interrupts, clock ticks, sleeps and user-mode stores, from boot onwards.
 */
module IpcRuns {
  import opened ProcTable
  import opened Segments
  import opened SchedSpec
  import opened IpcSpec
  import opened IpcInv
  import opened IpcLog

  // ---------------------------------------------------------------- boot

  const KERNEL_CODE := InitDescriptor(0, 0xF_FFFF, DA_32 + DA_CR + DA_LIMIT_4K)
  const KERNEL_DATA := InitDescriptor(0, 0xF_FFFF, DA_32 + DA_DRW + DA_LIMIT_4K)
  const INIT_LIMIT := (0x3_0000 + 0x7_FFFF) / 0x1000
  const NULL_DESCRIPTOR := Descriptor(0, 0, 0, 0, 0, 0)

  function NativeProc(privilege: int, priority: int, code: Descriptor, data: Descriptor): Proc {
    Proc(READY, 0, NO_TASK, NO_TASK, false, NO_TASK, 0, priority, 0, priority,
         code.(attr1 := DA_C + privilege * 0x20), data.(attr1 := DA_DRW + privilege * 0x20))
  }

  /** The entry that cstart and init_sched leave at index i. */
  function BootProc(i: int): Proc {
    if i >= FIRST_FORKED then
      Proc(FREE_SLOT, 0, 0, 0, false, 0, 0, 0, 0, 0, NULL_DESCRIPTOR, NULL_DESCRIPTOR)
    else if i < NR_TASKS then NativeProc(PRIVILEGE_TASK, 15, KERNEL_CODE, KERNEL_DATA)
    else if i == INIT then
      NativeProc(PRIVILEGE_USER, 5, InitDescriptor(0, INIT_LIMIT, DA_32 + DA_LIMIT_4K),
                 InitDescriptor(0, INIT_LIMIT, DA_32 + DA_LIMIT_4K))
    else NativeProc(PRIVILEGE_USER, 5, KERNEL_CODE, KERNEL_DATA)
  }

  function BootState(mem: seq<Memory>): State {
    State(seq(N, i => BootProc(i)), seq(N, _ => []), mem, TASK_TTY, 0, [])
  }

  lemma BootInv(mem: seq<Memory>)
    requires |mem| == N
    ensures Inv(BootState(mem))
  {
    var s := BootState(mem);
    var rank: seq<nat> := seq(N, _ => 0);
    assert RankOk(s.procs, rank);
    forall d | 0 <= d < N ensures Outstanding(s.trace, d) == Pending(s, d) {
    }
  }

  // ---------------------------------------------------------------- runs

  datatype Event =
    | StoreMessage(a: int, m: Message)
    | SendMessage(dest: int, a: int)
    | ReceiveMessage(src: int, a: int)
    | Irq(task: int)
    | Clock(nested: bool)
    | Nap(ms: int)

  /** What the callers of the kernel respect: the terminal task never blocks, and messages have an address. */
  predicate Possible(s: State, e: Event) {
    match e
    case StoreMessage(_, _) => true
    case SendMessage(dest, a) => s.ready != TASK_TTY && IsPid(dest) && a != 0
    case ReceiveMessage(src, a) => s.ready != TASK_TTY && ValidSource(src) && a != 0
    case Irq(task) => IsPid(task)
    case Clock(_) => true
    case Nap(_) => s.ready != TASK_TTY
  }

  ghost function Step(s: State, e: Event): Outcome
    requires Shaped(s) && Possible(s, e)
  {
    match e
    case StoreMessage(a, m) => Done(Store(s, s.ready, a, m))
    case SendMessage(dest, a) => SysSend(s, dest, a)
    case ReceiveMessage(src, a) => SysReceive(s, src, a)
    case Irq(task) => Interrupt(s, task)
    case Clock(nested) => Done(Tick(s, nested))
    case Nap(ms) => Done(Sleep(s, ms))
  }

  ghost predicate IsStep(s: State, e: Event, t: State) {
    Shaped(s) && Possible(s, e) && Step(s, e) == Done(t)
  }

  /** run[i] is the state before event es[i]. */
  ghost predicate IsRun(run: seq<State>, es: seq<Event>) {
    && |run| == |es| + 1
    && forall i :: 0 <= i < |es| ==> IsStep(run[i], es[i], run[i + 1])
  }

  lemma StepKeepsInv(s: State, e: Event)
    requires Inv(s) && Possible(s, e)
    ensures Step(s, e).Done? ==> Inv(Step(s, e).s)
  {
    match e
    case StoreMessage(a, m) => StoreKeepsInv(s, a, m);
    case SendMessage(dest, a) => SysSendKeepsInv(s, dest, a);
    case ReceiveMessage(src, a) => SysReceiveKeepsInv(s, src, a);
    case Irq(task) => InterruptKeepsInv(s, task);
    case Clock(nested) => TickKeepsInv(s, nested);
    case Nap(ms) => SleepKeepsInv(s, ms);
  }

  /** Every state of every run satisfies the invariant. */
  lemma {:induction false} RunKeepsInv(run: seq<State>, es: seq<Event>, i: nat)
    requires IsRun(run, es) && Inv(run[0]) && i < |run|
    ensures Inv(run[i])
  {
    if i > 0 {
      RunKeepsInv(run, es, i - 1);
      assert IsStep(run[i - 1], es[i - 1], run[i]);
      StepKeepsInv(run[i - 1], es[i - 1]);
    }
  }

  // ---------------------------------------------------------------- what can stop the machine

  /** Without the memory manager no process is WAITING or HANGING. */
  ghost predicate Plain(ps: seq<Proc>) {
    forall i :: 0 <= i < |ps| ==> !ps[i].flags.waiting && !ps[i].flags.hanging
  }

  lemma ReschedulePlain(s: State)
    requires Plain(s.procs)
    ensures Plain(Reschedule(s).procs)
  {
    ScheduledIsSame(s.procs, s.now);
  }

  lemma SendKeepsPlain(s: State, dest: int, a: int)
    requires Shaped(s) && IsPid(dest) && Plain(s.procs) && SysSend(s, dest, a).Done?
    ensures Plain(SysSend(s, dest, a).s.procs)
  {
    ReschedulePlain(Enqueue(Stamp(s, a), s.ready, dest, a));
  }

  lemma ReceiveKeepsPlain(s: State, src: int, a: int)
    requires Shaped(s) && ValidSource(src) && Plain(s.procs) && SysReceive(s, src, a).Done?
    ensures Plain(SysReceive(s, src, a).s.procs)
  {
    ReschedulePlain(Await(Stamp(s, a), src, a));
  }

  lemma StepKeepsPlain(s: State, e: Event)
    requires Inv(s) && Plain(s.procs) && Possible(s, e) && Step(s, e).Done?
    ensures Plain(Step(s, e).s.procs)
  {
    match e
    case StoreMessage(a, m) =>
    case SendMessage(dest, a) => SendKeepsPlain(s, dest, a);
    case ReceiveMessage(src, a) => ReceiveKeepsPlain(s, src, a);
    case Irq(task) =>
    case Clock(nested) => ReschedulePlain(CountTick(s));
    case Nap(ms) => ReschedulePlain(FallAsleep(s, ms));
  }

  lemma {:induction false} RunKeepsPlain(run: seq<State>, es: seq<Event>, i: nat)
    requires IsRun(run, es) && Inv(run[0]) && Plain(run[0].procs) && i < |run|
    ensures Plain(run[i].procs)
  {
    if i > 0 {
      RunKeepsPlain(run, es, i - 1);
      RunKeepsInv(run, es, i - 1);
      assert IsStep(run[i - 1], es[i - 1], run[i]);
      StepKeepsPlain(run[i - 1], es[i - 1]);
    }
  }

  /** A caller can tell beforehand whether its call will trip an assertion. */
  predicate MisusesIpc(s: State, e: Event)
    requires Shaped(s)
  {
    match e
    case SendMessage(dest, _) => dest == s.ready
    case ReceiveMessage(src, _) =>
      src == s.ready ||
      (IsPid(src) && s.procs[s.ready].hasInt && !(s.procs[src].flags.sending && s.procs[src].sendTo == s.ready))
    case _ => false
  }

  /**
   In a run of the IPC kernel an assertion fails exactly on these misuses: talking to
   oneself, or blocking on one partner while an interrupt is held back. The kernel
   panics exactly when the send would close a cycle of blocked senders.
   */
  lemma WhatStopsTheMachine(s: State, e: Event)
    requires Inv(s) && Plain(s.procs) && Possible(s, e)
    ensures Step(s, e).AssertFail? <==> MisusesIpc(s, e)
    ensures Step(s, e).Panic? <==> e.SendMessage? && e.dest != s.ready && Reaches(s.procs, e.dest, s.ready)
  {
    match e
    case SendMessage(dest, a) => assert Legal(s.procs[dest]);
    case ReceiveMessage(src, a) =>
      if IsPid(Source(s, src)) {
        SourceIsQueued(s, src);
      }
    case Irq(task) => assert Legal(s.procs[task]);
    case _ =>
  }

  // ---------------------------------------------------------------- delivery

  /** The messages posted by f to d, in order. */
  function PostedOn(t: seq<Entry>, f: int, d: int): seq<Message> {
    if t == [] then []
    else
      var earlier := PostedOn(t[..|t| - 1], f, d);
      var e := t[|t| - 1];
      if e.Posted? && e.from == f && e.to == d then earlier + [e.m] else earlier
  }

  /** The messages d has taken from f, in order. */
  function TakenOn(t: seq<Entry>, f: int, d: int): seq<Message> {
    if t == [] then []
    else
      var earlier := TakenOn(t[..|t| - 1], f, d);
      var e := t[|t| - 1];
      if e.Taken? && e.from == f && e.receiver == d then earlier + [e.m] else earlier
  }

  function Letters(mail: seq<Mail>, f: int): seq<Message> {
    if mail == [] then []
    else if mail[0].from == f then [mail[0].m] + Letters(mail[1..], f)
    else Letters(mail[1..], f)
  }

  lemma {:induction false} LettersSnoc(mail: seq<Mail>, x: Mail, f: int)
    ensures Letters(mail + [x], f) == Letters(mail, f) + if x.from == f then [x.m] else []
  {
    if mail != [] {
      LettersSnoc(mail[1..], x, f);
      assert (mail + [x])[1..] == mail[1..] + [x];
    }
  }

  lemma {:induction false} LettersAfterDrop(mail: seq<Mail>, g: int, f: int)
    ensures f != g ==> Letters(DropFirst(mail, g), f) == Letters(mail, f)
    ensures f == g && FirstFrom(mail, f) != [] ==>
            Letters(mail, f) == [FirstFrom(mail, f)[0].m] + Letters(DropFirst(mail, f), f)
  {
    if mail != [] && mail[0].from != g {
      LettersAfterDrop(mail[1..], g, f);
      assert ([mail[0]] + DropFirst(mail[1..], g))[1..] == DropFirst(mail[1..], g);
    }
  }

  /**
   On every channel from f to d, what d has taken followed by what is on its way is
   exactly what f has posted: nothing is lost, duplicated, invented or reordered.
   */
  lemma {:induction false} ChannelIsFifo(t: seq<Entry>, f: int, d: int)
    requires WellLogged(t)
    ensures TakenOn(t, f, d) + Letters(Outstanding(t, d), f) == PostedOn(t, f, d)
  {
    if t != [] {
      var earlier := t[..|t| - 1];
      ChannelIsFifo(earlier, f, d);
      match t[|t| - 1]
      case Posted(from, to, m) => LettersSnoc(Outstanding(earlier, d), Mail(from, m), f);
      case Taken(receiver, from, m) => LettersAfterDrop(Outstanding(earlier, d), from, f);
      case Interrupted(_) =>
    }
  }

  /** Every logged message names the process that sent it. */
  lemma {:induction false} SourcesAreAuthentic(t: seq<Entry>, i: nat)
    requires WellLogged(t) && i < |t|
    ensures t[i].Posted? ==> t[i].m.source == t[i].from
    ensures t[i].Taken? ==> exists j: nat :: j < i && t[j] == Posted(t[i].from, t[i].receiver, t[i].m)
    ensures t[i].Taken? ==> t[i].m.source == t[i].from
  {
    var earlier := t[..|t| - 1];
    if i < |t| - 1 {
      SourcesAreAuthentic(earlier, i);
      if t[i].Taken? {
        var j: nat :| j < i && earlier[j] == Posted(t[i].from, t[i].receiver, t[i].m);
        assert t[j] == earlier[j];
      }
    } else if t[i].Taken? {
      var mail := Outstanding(earlier, t[i].receiver);
      FirstFromIsMember(mail, t[i].from);
      var j := OutstandingWasPosted(earlier, t[i].receiver, Mail(t[i].from, t[i].m));
      assert t[j] == earlier[j];
    }
  }

  lemma {:induction false} FirstFromIsMember(mail: seq<Mail>, f: int)
    ensures FirstFrom(mail, f) != [] ==> |FirstFrom(mail, f)| == 1 && FirstFrom(mail, f)[0] in mail
  {
    if mail != [] && mail[0].from != f {
      FirstFromIsMember(mail[1..], f);
    }
  }

  lemma {:induction false} DropKeepsMembers(mail: seq<Mail>, f: int, x: Mail)
    requires x in DropFirst(mail, f)
    ensures x in mail
  {
    if mail[0].from != f && x != mail[0] {
      DropKeepsMembers(mail[1..], f, x);
    }
  }

  lemma {:induction false} OutstandingWasPosted(t: seq<Entry>, d: int, x: Mail) returns (j: nat)
    requires WellLogged(t) && x in Outstanding(t, d)
    ensures j < |t| && t[j] == Posted(x.from, d, x.m) && x.m.source == x.from
  {
    var earlier := t[..|t| - 1];
    var e := t[|t| - 1];
    if e == Posted(x.from, d, x.m) {
      j := |t| - 1;
    } else {
      if e.Taken? && e.receiver == d {
        DropKeepsMembers(Outstanding(earlier, d), e.from, x);
      }
      j := OutstandingWasPosted(earlier, d, x);
    }
  }

  /**
   What a receiver finds: whenever the log grows by a taken message, the receiver has
   just been unblocked or is the caller, and the message is in its memory.
   */
  lemma DeliveryReachesMemory(s: State, e: Event)
    requires Inv(s) && Possible(s, e) && Step(s, e).Done?
    requires e.SendMessage? && Awaits(s.procs[e.dest], s.ready)
    ensures var t := Step(s, e).s;
            && t.trace[|t.trace| - 1] == Taken(e.dest, s.ready, Load(t.mem[e.dest], s.procs[e.dest].msg))
            && Load(t.mem[e.dest], s.procs[e.dest].msg) == Load(s.mem[s.ready], e.a).(source := s.ready)
            && t.procs[e.dest].flags == READY
  {
  }

  /** What a queued process is sending names that process as its source. */
  lemma QueuedLetterIsAuthentic(s: State, d: int, f: int)
    requires CoreInv(s) && IsPid(d) && f in s.queues[d]
    ensures Letter(s, f).source == f
  {
    var k := IndexOf(s.queues[d], f);
    assert Pending(s, d)[k] == Mail(f, Letter(s, f)) && Pending(s, d)[k] in Outstanding(s.trace, d);
    var j := OutstandingWasPosted(s.trace, d, Pending(s, d)[k]);
  }

  /**
   An ANY receive serves the queue's oldest sender; a receive from f serves f if it is queued.
   The others stay queued in their order, and the message is the one f sent.
   */
  lemma ReceiveServesInOrder(s: State, src: int, a: int)
    requires Inv(s) && ValidSource(src) && src != s.ready && SysReceive(s, src, a).Done?
    requires !(s.procs[s.ready].hasInt && !IsPid(src)) && IsPid(Source(s, src))
    ensures var f := Source(s, src); var t := SysReceive(s, src, a).s; var q := s.queues[s.ready];
            && f in q && (src == ANY ==> f == q[0]) && (IsPid(src) ==> f == src)
            && (var k := IndexOf(q, f); t.queues == s.queues[s.ready := q[..k] + q[k + 1..]])
            && Load(t.mem[s.ready], a) == Letter(s, f) && Letter(s, f).source == f
            && t.procs[f].flags == READY
  {
    var f := Source(s, src);
    SourceIsQueued(s, src);
    ReceiveIsTake(s, src, a);
    QueuedLetterIsAuthentic(s, s.ready, f);
  }

  // ---------------------------------------------------------------- interrupts

  predicate IsInterruptMessage(m: Message) {
    m.source == INTERRUPT && m.kind == HARD_INT
  }

  /** An interrupt reaches a task that waits for one at once, and is held back for any other. */
  lemma InterruptArrives(s: State, task: int)
    requires Inv(s) && IsPid(task)
    ensures Interrupt(s, task).Done?
    ensures var t := Interrupt(s, task).s;
            if AwaitsInterrupt(s.procs[task])
            then t.procs[task].flags == READY && !t.procs[task].hasInt
              && IsInterruptMessage(Load(t.mem[task], s.procs[task].msg))
            else t.procs[task] == s.procs[task].(hasInt := true) && t.mem == s.mem
  {
    assert Legal(s.procs[task]);
  }

  /** The same interrupts are held back in s and t. */
  ghost predicate SameHeld(s: State, t: State) {
    |s.procs| == |t.procs| && forall i :: 0 <= i < |s.procs| ==> s.procs[i].hasInt == t.procs[i].hasInt
  }

  lemma RescheduleHolds(s: State)
    ensures SameHeld(s, Reschedule(s))
  {
    ScheduledIsSame(s.procs, s.now);
  }

  lemma SendHolds(s: State, dest: int, a: int)
    requires Shaped(s) && IsPid(dest) && SysSend(s, dest, a).Done?
    ensures SameHeld(s, SysSend(s, dest, a).s)
  {
    RescheduleHolds(Enqueue(Stamp(s, a), s.ready, dest, a));
  }

  lemma ReceiveHolds(s: State, src: int, a: int)
    requires Shaped(s) && ValidSource(src) && SysReceive(s, src, a).Done? && !(s.procs[s.ready].hasInt && !IsPid(src))
    ensures SameHeld(s, SysReceive(s, src, a).s)
  {
    RescheduleHolds(Await(Stamp(s, a), src, a));
  }

  /**
   No interrupt is lost: held back, it stays so until its receiver's next receive from ANY or INTERRUPT, which it
   completes at once.
   */
  lemma InterruptIsHeldUntilTaken(s: State, e: Event, t: State, task: int)
    requires Inv(s) && IsStep(s, e, t) && IsPid(task) && s.procs[task].hasInt
    ensures Shaped(t)
    ensures var takes := s.ready == task && e.ReceiveMessage? && !IsPid(e.src);
            && (takes <==> !t.procs[task].hasInt)
            && (takes ==> t.ready == task && t.queues == s.queues && IsInterruptMessage(Load(t.mem[task], e.a)))
  {
    StepKeepsInv(s, e);
    match e
    case StoreMessage(a, m) =>
    case SendMessage(dest, a) => SendHolds(s, dest, a);
    case ReceiveMessage(src, a) =>
      if s.procs[s.ready].hasInt && !IsPid(src) {
        ReceiveTakesInterrupt(s, src, a);
      } else {
        ReceiveHolds(s, src, a);
      }
    case Irq(other) => assert Interrupt(s, other) == Done(t);
    case Clock(nested) => RescheduleHolds(CountTick(s));
    case Nap(ms) => RescheduleHolds(FallAsleep(s, ms));
  }
}
