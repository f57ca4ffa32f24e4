/**
 What the request/reply discipline guarantees: the invariant of the combined machine.
 */
module WorldInv {
  import opened ProcTable
  import opened Segments
  import opened SchedSpec
  import opened IpcSpec
  import opened IpcInv
  import opened IpcLog
  import opened Family
  import opened World

  // ---------------------------------------------------------------- the protocol

  /** What the entry of a caller looks like in each phase of its call. */
  predicate InCall(p: Proc, ph: Phase) {
    && (p.flags.sending <==> ph.Sending?)
    && (p.flags.receiving <==> ph.Blocked?)
    && (!ph.Idle? ==> IsServer(ph.server))
    && (ph.Sending? ==> p.sendTo == ph.server)
    && (ph.Blocked? ==> p.recvFrom == ph.server)
  }

  /** What a user process's entry looks like. */
  predicate PhaseOk(p: Proc, ph: Phase) {
    && !p.hasInt
    && InCall(p, ph)
    && (p.flags.waiting || p.flags.hanging ==> Owed(ph, TASK_MM) && !(p.flags.waiting && p.flags.hanging))
    && (p.flags.sleeping ==> ph.Idle?)
    && (p.flags.freeSlot ==> ph.Idle?)
  }

  /**
   What a task's entry looks like outside a call: if it is sending, it is answering a caller that is past its own
   send.
   */
  predicate Serving(p: Proc, v: int, phase: seq<Phase>)
    requires |phase| == N
  {
    && (p.flags.sending ==> IsCaller(p.sendTo) && phase[p.sendTo] == Answering(v))
    && (p.flags.receiving ==> p.recvFrom == ANY || p.recvFrom == INTERRUPT)
  }

  /** What a task's entry looks like. Only the disk task is interrupted, and only the file system calls. */
  predicate TaskOk(p: Proc, v: int, phase: seq<Phase>)
    requires |phase| == N && 0 <= v < N
  {
    && !p.flags.freeSlot && !p.flags.sleeping && !p.flags.waiting && !p.flags.hanging
    && (p.hasInt ==> v == TASK_HD)
    && (if phase[v] == Idle then Serving(p, v, phase) else v == TASK_FS && InCall(p, phase[v]) && phase[v].server < v)
  }

  /** A caller that is past its send and finds the answer waiting has the server queued at it. */
  predicate AnswerWaits(ps: seq<Proc>, phase: seq<Phase>, c: int)
    requires |ps| == |phase| == N && 0 <= c < N
  {
    phase[c].Answering? ==>
      var v := phase[c].server;
      IsServer(v) && phase[v] == Idle && ps[v].flags.sending && ps[v].sendTo == c
  }

  ghost predicate Protocol(ps: seq<Proc>, phase: seq<Phase>) {
    && |ps| == |phase| == N
    && (forall i {:trigger PhaseOk(ps[i], phase[i])} :: NR_TASKS <= i < N ==> PhaseOk(ps[i], phase[i]))
    && (forall v {:trigger TaskOk(ps[v], v, phase)} :: 0 <= v < NR_TASKS ==> TaskOk(ps[v], v, phase))
    && (forall c {:trigger AnswerWaits(ps, phase, c)} :: 0 <= c < N && IsCaller(c) ==> AnswerWaits(ps, phase, c))
  }

  // ---------------------------------------------------------------- the memory manager's duties

  function Subject(x: Action): int {
    match x
    case Answer(to, _) => to
    case Reap(_, to, _) => to
    case Release(child) => child
  }

  /** c waits for the memory manager, which has neither suspended nor buried it. */
  predicate Expectant(p: Proc, ph: Phase) {
    Owed(ph, TASK_MM) && !p.flags.waiting && !p.flags.hanging
  }

  predicate ActionOk(ps: seq<Proc>, phase: seq<Phase>, x: Action)
    requires |ps| == |phase| == N
  {
    match x
    case Answer(to, _) => IsUser(to) && Expectant(ps[to], phase[to])
    case Reap(child, to, m) =>
      && IsUser(to) && Expectant(ps[to], phase[to]) && IsForked(child)
      && ps[child].parent == to && m.kind == SYSCALL_RET && m.i1 == ps[child].exitStatus && m.i2 == child
    case Release(child) => IsForked(child) && Owed(phase[child], TASK_MM) && !ps[child].flags.waiting
  }

  /** The report of a death is followed by the release of the slot. */
  predicate ThenReleased(actions: seq<Action>, k: int)
    requires 0 <= k < |actions|
  {
    actions[k].Reap? ==> k + 1 < |actions| && actions[k + 1] == Release(actions[k].child)
  }

  ghost predicate ActionsOk(ps: seq<Proc>, phase: seq<Phase>, actions: seq<Action>) {
    && |ps| == |phase| == N
    && (forall k {:trigger ActionOk(ps, phase, actions[k])} :: 0 <= k < |actions| ==> ActionOk(ps, phase, actions[k]))
    && (forall j, k {:trigger Subject(actions[j]), Subject(actions[k])} :: 0 <= j < k < |actions| ==>
        Subject(actions[j]) != Subject(actions[k]))
    && (forall k {:trigger ThenReleased(actions, k)} :: 0 <= k < |actions| ==> ThenReleased(actions, k))
  }

  predicate HandOk(ps: seq<Proc>, phase: seq<Phase>, hand: Hand, actions: seq<Action>)
    requires |ps| == |phase| == N
  {
    hand.Request? ==>
      && actions == [] && IsUser(hand.from) && Serviceable(hand.m, hand.from)
      && Expectant(ps[hand.from], phase[hand.from])
  }

  predicate ManagerOk(p: Proc, hand: Hand, actions: seq<Action>) {
    && (p.flags.receiving ==> p.recvFrom == ANY && hand == Empty && actions == [])
    && (p.flags.sending ==> hand == Empty)
  }

  ghost predicate Duties(ps: seq<Proc>, phase: seq<Phase>, hand: Hand, actions: seq<Action>) {
    && |ps| == |phase| == N
    && ActionsOk(ps, phase, actions)
    && HandOk(ps, phase, hand, actions)
    && ManagerOk(ps[TASK_MM], hand, actions)
  }

  // ---------------------------------------------------------------- the family

  predicate Buried(actions: seq<Action>, i: int) {
    Release(i) in actions
  }

  /** A live process: it has a slot, has not exited, and is not about to lose its slot. */
  predicate Lives(ps: seq<Proc>, actions: seq<Action>, i: int) {
    0 <= i < |ps| && !ps[i].flags.freeSlot && !ps[i].flags.hanging && !Buried(actions, i)
  }

  /** If i still has its slot, and is not about to lose it, its parent is alive. */
  predicate ParentLives(ps: seq<Proc>, actions: seq<Action>, i: int)
    requires 0 <= i < |ps|
  {
    !ps[i].flags.freeSlot && !Buried(actions, i) ==>
      ps[i].parent != i && IsUser(ps[i].parent) && Lives(ps, actions, ps[i].parent)
  }

  /** Every forked process has a live parent. */
  ghost predicate ParentsLive(ps: seq<Proc>, actions: seq<Action>) {
    |ps| == N && forall i {:trigger ParentLives(ps, actions, i)} :: FIRST_FORKED <= i < N ==>
      ParentLives(ps, actions, i)
  }

  /** If j has exited, its parent is not waiting for it. */
  predicate NotAwaited(ps: seq<Proc>, j: int)
    requires 0 <= j < |ps|
  {
    ps[j].flags.hanging && 0 <= ps[j].parent < |ps| ==> !ps[ps[j].parent].flags.waiting
  }

  /** Nobody waits for a child that has already exited. */
  ghost predicate NoVainWait(ps: seq<Proc>) {
    forall j {:trigger NotAwaited(ps, j)} :: 0 <= j < |ps| ==> NotAwaited(ps, j)
  }

  ghost predicate OnlyForkedDie(ps: seq<Proc>) {
    |ps| == N && forall i :: 0 <= i < FIRST_FORKED ==> !ps[i].flags.hanging && !ps[i].flags.freeSlot
  }

  /** Every slot that is in use by a forked process has its own segments; the others have one segment of modest size. */
  ghost predicate SegmentsOk(ps: seq<Proc>) {
    && |ps| == N
    && (forall i :: FIRST_FORKED <= i < N && !ps[i].flags.freeSlot ==> HasSlot(ps[i], i))
    && (forall i :: 0 <= i < FIRST_FORKED ==> OneSegment(ps[i]) && SizeOf(ps[i].ldtC) <= PROC_IMAGE_SIZE_DEFAULT)
  }

  ghost predicate FamilyOk(ps: seq<Proc>, actions: seq<Action>) {
    ParentsLive(ps, actions) && NoVainWait(ps) && OnlyForkedDie(ps) && SegmentsOk(ps)
  }

  /** A request that waits in the memory manager's queue is one it can serve. */
  ghost predicate RequestsOk(s: State, phase: seq<Phase>) {
    |phase| == N && forall c :: NR_TASKS <= c < N && phase[c] == Sending(TASK_MM) ==> Serviceable(Letter(s, c), c)
  }

  ghost predicate WorldCore(w: World) {
    && CoreInv(w.s)
    && RequestsOk(w.s, w.phase)
    && Protocol(w.s.procs, w.phase)
    && Duties(w.s.procs, w.phase, w.hand, w.actions)
    && FamilyOk(w.s.procs, w.actions)
  }

  ghost predicate WorldOk(w: World) {
    WorldCore(w) && Inv(w.s)
  }

  // ---------------------------------------------------------------- frames

  /** q is p as far as the process family is concerned. */
  predicate Kin(p: Proc, q: Proc) {
    && p.flags.freeSlot == q.flags.freeSlot && p.flags.hanging == q.flags.hanging && p.flags.waiting == q.flags.waiting
    && p.parent == q.parent && p.exitStatus == q.exitStatus && p.ldtC == q.ldtC && p.ldtRW == q.ldtRW
  }

  ghost predicate SameKin(ps: seq<Proc>, qs: seq<Proc>) {
    |ps| == |qs| && forall i :: 0 <= i < |ps| ==> Kin(ps[i], qs[i])
  }

  lemma SameKinSameFamily(ps: seq<Proc>, qs: seq<Proc>, actions: seq<Action>)
    requires FamilyOk(ps, actions) && SameKin(ps, qs)
    ensures FamilyOk(qs, actions)
  {
    forall i | FIRST_FORKED <= i < N ensures ParentLives(qs, actions, i) {
      assert ParentLives(ps, actions, i);
    }
    forall j | 0 <= j < N ensures NotAwaited(qs, j) {
      assert NotAwaited(ps, j);
    }
  }

  /** Whoever waits for the memory manager, except one process, goes on waiting for it in the same way. */
  ghost predicate SameWards(ps: seq<Proc>, phase: seq<Phase>, qs: seq<Proc>, phase': seq<Phase>, except: int) {
    && SameKin(ps, qs) && |ps| == |phase| == |phase'| == N
    && forall i :: NR_TASKS <= i < N && i != except && Owed(phase[i], TASK_MM) ==> Owed(phase'[i], TASK_MM)
  }

  lemma SameWardsSameActions(ps: seq<Proc>, phase: seq<Phase>, qs: seq<Proc>, phase': seq<Phase>,
                             except: int, actions: seq<Action>)
    requires SameWards(ps, phase, qs, phase', except)
    requires ActionsOk(ps, phase, actions)
    requires forall k :: 0 <= k < |actions| ==> Subject(actions[k]) != except
    ensures ActionsOk(qs, phase', actions)
  {
    forall k | 0 <= k < |actions| ensures ActionOk(qs, phase', actions[k]) {
      assert ActionOk(ps, phase, actions[k]) && Subject(actions[k]) != except;
    }
  }

  /** When nobody stops waiting, the duties stay as they are, up to the manager's own state. */
  lemma SameWardsSameDuties(ps: seq<Proc>, phase: seq<Phase>, hand: Hand, actions: seq<Action>,
                            qs: seq<Proc>, phase': seq<Phase>, hand': Hand)
    requires Duties(ps, phase, hand, actions) && SameWards(ps, phase, qs, phase', -1)
    requires hand' == hand || HandOk(qs, phase', hand', actions)
    requires ManagerOk(qs[TASK_MM], hand', actions)
    ensures Duties(qs, phase', hand', actions)
  {
    forall k | 0 <= k < |actions| ensures Subject(actions[k]) != -1 {
      assert ActionOk(ps, phase, actions[k]);
    }
    SameWardsSameActions(ps, phase, qs, phase', -1, actions);
  }

  lemma SameLettersSameRequests(s: State, phase: seq<Phase>, t: State, phase': seq<Phase>)
    requires RequestsOk(s, phase) && Shaped(s) && Shaped(t) && |phase'| == N
    requires forall c :: NR_TASKS <= c < N && phase'[c] == Sending(TASK_MM) ==>
                           phase[c] == Sending(TASK_MM) && t.mem[c] == s.mem[c] && t.procs[c].msg == s.procs[c].msg
    ensures RequestsOk(t, phase')
  {
    forall d | NR_TASKS <= d < N && phase'[d] == Sending(TASK_MM) ensures Serviceable(Letter(t, d), d) {
      assert Letter(t, d) == Letter(s, d);
    }
  }

  // What waits in the manager's queue is not touched by what the other processes do.

  ghost predicate StillAsks(phase: seq<Phase>, phase': seq<Phase>, x: int, y: int) {
    |phase| == |phase'| == N &&
    forall j :: NR_TASKS <= j < N && phase'[j] == Sending(TASK_MM) ==> j != x && j != y && phase[j] == Sending(TASK_MM)
  }

  lemma TakeLetters(s: State, phase: seq<Phase>, f: int, a: int, phase': seq<Phase>)
    requires Shaped(s) && RequestsOk(s, phase) && IsPid(f) && f in s.queues[s.ready]
    requires StillAsks(phase, phase', s.ready, f)
    ensures RequestsOk(Take(Stamp(s, a), f, a), phase')
  {
    SameLettersSameRequests(s, phase, Take(Stamp(s, a), f, a), phase');
  }

  lemma RendezvousLetters(s: State, phase: seq<Phase>, dest: int, a: int, phase': seq<Phase>)
    requires Shaped(s) && RequestsOk(s, phase) && IsPid(dest) && StillAsks(phase, phase', s.ready, dest)
    ensures RequestsOk(Rendezvous(Stamp(s, a), s.ready, dest, a), phase')
  {
    SameLettersSameRequests(s, phase, Rendezvous(Stamp(s, a), s.ready, dest, a), phase');
  }

  lemma EnqueueLetters(s: State, phase: seq<Phase>, dest: int, a: int, phase': seq<Phase>)
    requires Shaped(s) && RequestsOk(s, phase) && IsPid(dest) && StillAsks(phase, phase', s.ready, s.ready)
    ensures RequestsOk(Enqueue(Stamp(s, a), s.ready, dest, a), phase')
  {
    SameLettersSameRequests(s, phase, Enqueue(Stamp(s, a), s.ready, dest, a), phase');
  }

  lemma AwaitLetters(s: State, phase: seq<Phase>, src: int, a: int, phase': seq<Phase>)
    requires Shaped(s) && RequestsOk(s, phase) && StillAsks(phase, phase', s.ready, s.ready)
    ensures RequestsOk(IpcSpec.Await(Stamp(s, a), src, a), phase')
  {
    SameLettersSameRequests(s, phase, IpcSpec.Await(Stamp(s, a), src, a), phase');
  }

  /** A move that leaves the family and the manager's duties alone. */
  lemma QuietMove(w: World, t: World)
    requires WorldCore(w) && CoreInv(t.s) && Protocol(t.s.procs, t.phase) && RequestsOk(t.s, t.phase)
    requires SameWards(w.s.procs, w.phase, t.s.procs, t.phase, -1)
    requires t.actions == w.actions && (t.hand == w.hand || HandOk(t.s.procs, t.phase, t.hand, t.actions))
    requires ManagerOk(t.s.procs[TASK_MM], t.hand, t.actions)
    ensures WorldCore(t)
  {
    SameKinSameFamily(w.s.procs, t.s.procs, w.actions);
    SameWardsSameDuties(w.s.procs, w.phase, w.hand, w.actions, t.s.procs, t.phase, t.hand);
  }

  // ---------------------------------------------------------------- scheduling disturbs none of it

  lemma ScheduledProtocol(ps: seq<Proc>, now: int, phase: seq<Phase>)
    requires Protocol(ps, phase)
    ensures Protocol(Scheduled(ps, now), phase) && SameKin(ps, Scheduled(ps, now))
  {
    var qs := Scheduled(ps, now);
    ScheduledIsSame(ps, now);
    forall i | NR_TASKS <= i < N ensures PhaseOk(qs[i], phase[i]) {
      assert PhaseOk(ps[i], phase[i]);
    }
    forall v | 0 <= v < NR_TASKS ensures TaskOk(qs[v], v, phase) {
      assert TaskOk(ps[v], v, phase);
    }
    forall c | 0 <= c < N && IsCaller(c) ensures AnswerWaits(qs, phase, c) {
      assert AnswerWaits(ps, phase, c);
    }
  }

  lemma RescheduleKeepsWorld(w: World)
    requires WorldCore(w)
    ensures WorldOk(w.(s := Reschedule(w.s)))
  {
    var t := w.(s := Reschedule(w.s));
    RescheduleKeepsCore(w.s);
    ScheduledProtocol(w.s.procs, w.s.now, w.phase);
    ScheduledIsSame(w.s.procs, w.s.now);
    SameLettersSameRequests(w.s, w.phase, t.s, w.phase);
    QuietMove(w, t);
  }

  // ---------------------------------------------------------------- nobody's send is refused

  /**
   Where the chain of blocked senders from server v leads: along calls to ever lower servers, then
   to a caller that is past its send. It never comes to a process that is outside a call.
   */
  lemma {:induction false} CallChain(ps: seq<Proc>, phase: seq<Phase>, v: int, c: int, n: nat)
    requires Protocol(ps, phase) && MayCall(c, v) && phase[c] == Idle
    ensures Hop(ps, v, n) != c
    decreases n
  {
    assert TaskOk(ps[v], v, phase);
    if n > 0 && ps[v].flags.sending {
      var d := ps[v].sendTo;
      if phase[v] == Idle {
        assert phase[d] == Answering(v) && d != c;
        PastItsSend(ps, phase, d);
      } else {
        CallChain(ps, phase, d, c, n - 1);
      }
    }
  }

  /** A caller whose request has been taken is not blocked in a send. */
  lemma PastItsSend(ps: seq<Proc>, phase: seq<Phase>, d: int)
    requires Protocol(ps, phase) && IsCaller(d) && !phase[d].Idle? && !phase[d].Sending?
    ensures !ps[d].flags.sending
  {
    assert IsUser(d) ==> PhaseOk(ps[d], phase[d]);
    assert !IsUser(d) ==> TaskOk(ps[d], d, phase);
  }

  /** No chain of blocked senders leads from a server back to a process that may call it. */
  lemma CallClosesNoCycle(ps: seq<Proc>, phase: seq<Phase>, v: int, c: int)
    requires Protocol(ps, phase) && MayCall(c, v) && phase[c] == Idle
    ensures !Reaches(ps, v, c)
  {
    forall n: nat ensures Hop(ps, v, n) != c {
      CallChain(ps, phase, v, c, n);
    }
  }

  /** An answer that is owed closes no cycle. */
  lemma AnswerClosesNoCycle(ps: seq<Proc>, phase: seq<Phase>, v: int, d: int)
    requires Protocol(ps, phase) && IsServer(v) && IsCaller(d) && Owed(phase[d], v) && v != d
    ensures !Reaches(ps, d, v)
  {
    PastItsSend(ps, phase, d);
    forall n: nat ensures Hop(ps, d, n) != v {
    }
  }

  /** Who is blocked sending to a user process: a server that answers it. */
  lemma WhoSendsToUsers(ps: seq<Proc>, phase: seq<Phase>, i: int)
    requires Protocol(ps, phase) && IsPid(i) && ps[i].flags.sending && IsUser(ps[i].sendTo)
    ensures 0 <= i < NR_TASKS && phase[ps[i].sendTo] == Answering(i)
  {
    assert i < NR_TASKS ==> TaskOk(ps[i], i, phase);
    assert i >= NR_TASKS ==> PhaseOk(ps[i], phase[i]);
  }

  /** Nobody is queued at a user process, except a server whose answer it has not fetched. */
  lemma NobodyQueuedAt(s: State, phase: seq<Phase>, c: int)
    requires CoreInv(s) && Protocol(s.procs, phase) && IsUser(c) && !phase[c].Answering?
    ensures s.queues[c] == []
  {
    if s.queues[c] != [] {
      var i := s.queues[c][0];
      assert i in s.queues[c] && SendsTo(s.procs, i, c);
      WhoSendsToUsers(s.procs, phase, i);
    }
  }
}
