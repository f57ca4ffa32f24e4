/**
 Every call and every answer of the combined machine keeps its invariant, and none of them stops the machine.
 */
module WorldSteps {
  import opened ProcTable
  import opened SchedSpec
  import opened IpcSpec
  import opened IpcInv
  import opened IpcLog
  import opened World
  import opened WorldInv

  // ---------------------------------------------------------------- changing one entry and one phase

  /**
   The protocol survives a new entry for i and a new phase for c, if these two fit and no answer
   to another caller hung on them.
   */
  lemma ChangedProtocol(ps: seq<Proc>, phase: seq<Phase>, i: int, p: Proc, c: int, ph: Phase)
    requires Protocol(ps, phase) && IsPid(i) && IsPid(c) && IsCaller(c)
    requires forall v :: 0 <= v < NR_TASKS && v != i && v != c ==>
                           phase[v] == Idle && ps[v].flags.sending && ps[v].sendTo == c ==> ph == Answering(v)
    requires var qs, phase' := ps[i := p], phase[c := ph];
             && (NR_TASKS <= i ==> PhaseOk(qs[i], phase'[i])) && (NR_TASKS <= c ==> PhaseOk(qs[c], phase'[c]))
             && (i < NR_TASKS ==> TaskOk(qs[i], i, phase')) && (c < NR_TASKS ==> TaskOk(qs[c], c, phase'))
             && AnswerWaits(qs, phase', c)
    requires forall d :: 0 <= d < N && d != c && IsCaller(d) && phase[d].Answering? && phase[d].server == i ==>
                           p.flags.sending && p.sendTo == d
    requires c == TASK_FS && ph != Idle ==>
               forall d :: 0 <= d < N && d != c && IsCaller(d) ==> !(phase[d].Answering? && phase[d].server == c)
    ensures Protocol(ps[i := p], phase[c := ph])
  {
    var qs, phase' := ps[i := p], phase[c := ph];
    forall j | NR_TASKS <= j < N ensures PhaseOk(qs[j], phase'[j]) {
      assert PhaseOk(ps[j], phase[j]);
    }
    forall v | 0 <= v < NR_TASKS ensures TaskOk(qs[v], v, phase') {
      assert TaskOk(ps[v], v, phase);
    }
    forall d | 0 <= d < N && IsCaller(d) ensures AnswerWaits(qs, phase', d) {
      assert AnswerWaits(ps, phase, d);
    }
  }

  /** No answer hangs on a server that is not sending. */
  lemma NobodyAwaitsAnswerOf(ps: seq<Proc>, phase: seq<Phase>, v: int)
    requires Protocol(ps, phase) && IsPid(v) && !ps[v].flags.sending
    ensures forall d :: 0 <= d < N && IsCaller(d) ==> !(phase[d].Answering? && phase[d].server == v)
  {
    forall d | 0 <= d < N && IsCaller(d) ensures !(phase[d].Answering? && phase[d].server == v) {
      assert AnswerWaits(ps, phase, d);
    }
  }

  /** No server is answering a process that is not in phase Answering. */
  lemma NobodyAnswers(ps: seq<Proc>, phase: seq<Phase>, c: int)
    requires Protocol(ps, phase) && IsPid(c) && !phase[c].Answering?
    ensures forall v :: 0 <= v < NR_TASKS && phase[v] == Idle ==> !(ps[v].flags.sending && ps[v].sendTo == c)
  {
    forall v | 0 <= v < NR_TASKS && phase[v] == Idle ensures !(ps[v].flags.sending && ps[v].sendTo == c) {
      assert TaskOk(ps[v], v, phase);
    }
  }

  // ---------------------------------------------------------------- calls

  lemma CallTaken(ps: seq<Proc>, phase: seq<Phase>, v: int, c: int)
    requires Protocol(ps, phase) && MayCall(c, v) && phase[c] == Idle && Runnable(ps[c])
    requires AllLegal(ps) && Awaits(ps[v], c)
    ensures Protocol(ps[v := Received(ps[v])], phase[c := Accepted(v)])
    ensures ps[v].flags == RECEIVING && ps[v].recvFrom == ANY
  {
    assert TaskOk(ps[v], v, phase) && Legal(ps[v]);
    assert c < NR_TASKS ==> TaskOk(ps[c], c, phase);
    assert c >= NR_TASKS ==> PhaseOk(ps[c], phase[c]);
    NobodyAwaitsAnswerOf(ps, phase, v);
    NobodyAwaitsAnswerOf(ps, phase, c);
    NobodyAnswers(ps, phase, c);
    ChangedProtocol(ps, phase, v, Received(ps[v]), c, Accepted(v));
  }

  lemma CallQueued(ps: seq<Proc>, phase: seq<Phase>, v: int, c: int, a: int)
    requires Protocol(ps, phase) && MayCall(c, v) && phase[c] == Idle && Runnable(ps[c])
    ensures var p := ps[c].(flags := ps[c].flags.(sending := true), sendTo := v, msg := a);
            Protocol(ps[c := p], phase[c := Sending(v)])
  {
    assert c < NR_TASKS ==> TaskOk(ps[c], c, phase);
    assert c >= NR_TASKS ==> PhaseOk(ps[c], phase[c]);
    NobodyAwaitsAnswerOf(ps, phase, c);
    NobodyAnswers(ps, phase, c);
    ChangedProtocol(ps, phase, c, ps[c].(flags := ps[c].flags.(sending := true), sendTo := v, msg := a), c, Sending(v));
  }

  lemma CallIsTaken(w: World, v: int, a: int)
    requires WorldOk(w) && Allowed(w, Call(v, a)) && Awaits(w.s.procs[v], w.s.ready)
    ensures SysSend(w.s, v, a) == Done(Rendezvous(Stamp(w.s, a), w.s.ready, v, a))
    ensures Inv(Rendezvous(Stamp(w.s, a), w.s.ready, v, a))
  {
    var c := w.s.ready;
    CallClosesNoCycle(w.s.procs, w.phase, v, c);
    CallTaken(w.s.procs, w.phase, v, c);
    StoreKeepsInv(w.s, a, Load(w.s.mem[c], a).(source := c));
    RendezvousKeepsInv(Stamp(w.s, a), v, a);
  }

  lemma TakenWards(ps: seq<Proc>, phase: seq<Phase>, v: int, c: int)
    requires |ps| == |phase| == N && 0 <= v < NR_TASKS && IsPid(c) && phase[c] == Idle
    ensures SameWards(ps, phase, ps[v := Received(ps[v])], phase[c := Accepted(v)], -1)
    ensures StillAsks(phase, phase[c := Accepted(v)], c, v)
  {
  }

  /** The request is in the manager's hand if it is the manager that has taken it. */
  lemma TakenInHand(w: World, v: int, a: int)
    requires WorldOk(w) && Allowed(w, Call(v, a)) && w.s.procs[v].flags == RECEIVING
    ensures var c := w.s.ready; var qs, phase' := w.s.procs[v := Received(w.s.procs[v])], w.phase[c := Accepted(v)];
            var hand := if v == TASK_MM then Request(c, Outgoing(w.s, a)) else w.hand;
            && (hand == w.hand || HandOk(qs, phase', hand, w.actions))
            && ManagerOk(qs[TASK_MM], hand, w.actions)
  {
    var c := w.s.ready;
    assert IsUser(c) ==> PhaseOk(w.s.procs[c], w.phase[c]);
  }

  lemma CallTakenCore(w: World, v: int, a: int, hand: Hand, t: World)
    requires WorldOk(w) && Allowed(w, Call(v, a)) && Awaits(w.s.procs[v], w.s.ready)
    requires hand == if v == TASK_MM then Request(w.s.ready, Outgoing(w.s, a)) else w.hand
    requires t == w.(phase := w.phase[w.s.ready := Accepted(v)], hand := hand,
                     s := Rendezvous(Stamp(w.s, a), w.s.ready, v, a),
                     notes := w.notes + [Called(w.s.ready, v, Outgoing(w.s, a))])
    ensures WorldOk(t)
  {
    CallIsTaken(w, v, a);
    CallTaken(w.s.procs, w.phase, v, w.s.ready);
    TakenWards(w.s.procs, w.phase, v, w.s.ready);
    TakenInHand(w, v, a);
    RendezvousLetters(w.s, w.phase, v, a, t.phase);
    QuietMove(w, t);
  }

  lemma CallTakenKeepsWorld(w: World, v: int, a: int)
    requires WorldOk(w) && Allowed(w, Call(v, a)) && Awaits(w.s.procs[v], w.s.ready)
    ensures CallStep(w, v, a).Goes? && WorldOk(CallStep(w, v, a).w)
  {
    var c := w.s.ready;
    CallIsTaken(w, v, a);
    var hand := if v == TASK_MM then Request(c, Outgoing(w.s, a)) else w.hand;
    var t := w.(phase := w.phase[c := Accepted(v)], hand := hand, notes := w.notes + [Called(c, v, Outgoing(w.s, a))],
                s := Rendezvous(Stamp(w.s, a), c, v, a));
    CallTakenCore(w, v, a, hand, t);
    assert CallStep(w, v, a) == Goes(t);
  }

  lemma CallIsQueued(w: World, v: int, a: int)
    requires WorldOk(w) && Allowed(w, Call(v, a)) && !Awaits(w.s.procs[v], w.s.ready)
    ensures var u := Enqueue(Stamp(w.s, a), w.s.ready, v, a);
            CoreInv(u) && SysSend(w.s, v, a) == Done(Reschedule(u))
  {
    var c := w.s.ready;
    CallClosesNoCycle(w.s.procs, w.phase, v, c);
    StoreKeepsInv(w.s, a, Load(w.s.mem[c], a).(source := c));
    EnqueueKeepsCore(Stamp(w.s, a), v, a);
  }

  lemma QueuedRequestIsServiceable(w: World, v: int, a: int)
    requires WorldOk(w) && Allowed(w, Call(v, a))
    ensures RequestsOk(Enqueue(Stamp(w.s, a), w.s.ready, v, a), w.phase[w.s.ready := Sending(v)])
  {
    var c := w.s.ready;
    var u := Enqueue(Stamp(w.s, a), c, v, a);
    forall d | NR_TASKS <= d < N
      && w.phase[c := Sending(v)][d] == Sending(TASK_MM) ensures Serviceable(Letter(u, d), d) {
      if d == c {
        assert Letter(u, c).kind == Load(w.s.mem[c], a).kind;
      } else {
        assert Letter(u, d) == Letter(w.s, d);
      }
    }
  }

  lemma QueuedWards(ps: seq<Proc>, phase: seq<Phase>, p: Proc, c: int, v: int)
    requires |ps| == |phase| == N && IsPid(c) && phase[c] == Idle && Kin(ps[c], p)
    ensures SameWards(ps, phase, ps[c := p], phase[c := Sending(v)], -1)
  {
  }

  lemma CallQueuedCore(w: World, v: int, a: int, u: World)
    requires WorldOk(w) && Allowed(w, Call(v, a)) && !Awaits(w.s.procs[v], w.s.ready)
    requires u == w.(s := Enqueue(Stamp(w.s, a), w.s.ready, v, a), phase := w.phase[w.s.ready := Sending(v)],
                     notes := w.notes + [Called(w.s.ready, v, Outgoing(w.s, a))])
    ensures WorldCore(u)
  {
    var c := w.s.ready;
    CallIsQueued(w, v, a);
    CallQueued(w.s.procs, w.phase, v, c, a);
    QueuedRequestIsServiceable(w, v, a);
    QueuedWards(w.s.procs, w.phase, u.s.procs[c], c, v);
    QuietMove(w, u);
  }

  lemma CallQueuedKeepsWorld(w: World, v: int, a: int)
    requires WorldOk(w) && Allowed(w, Call(v, a)) && !Awaits(w.s.procs[v], w.s.ready)
    ensures CallStep(w, v, a).Goes? && WorldOk(CallStep(w, v, a).w)
  {
    var c := w.s.ready;
    var u := w.(s := Enqueue(Stamp(w.s, a), c, v, a), phase := w.phase[c := Sending(v)],
                notes := w.notes + [Called(c, v, Outgoing(w.s, a))]);
    CallIsQueued(w, v, a);
    CallQueuedCore(w, v, a, u);
    RescheduleKeepsWorld(u);
    assert CallStep(w, v, a) == Goes(u.(s := Reschedule(u.s)));
  }

  // ---------------------------------------------------------------- fetching the answer

  /** The server whose answer waits is served at once. */
  lemma AnswerFetched(ps: seq<Proc>, phase: seq<Phase>, v: int, c: int)
    requires Protocol(ps, phase) && IsCaller(c) && IsPid(c) && phase[c] == Answering(v) && Runnable(ps[c])
    ensures IsServer(v) && v != c && ps[v].flags.sending && ps[v].sendTo == c && phase[v] == Idle
    ensures Protocol(ps[v := Sent(ps[v])], phase[c := Idle])
  {
    assert AnswerWaits(ps, phase, c) && TaskOk(ps[v], v, phase);
    assert c < NR_TASKS ==> TaskOk(ps[c], c, phase);
    assert c >= NR_TASKS ==> PhaseOk(ps[c], phase[c]);
    NobodyAwaitsAnswerOf(ps, phase, c);
    forall d | 0 <= d < N && d != c && IsCaller(d) ensures !(phase[d].Answering? && phase[d].server == v) {
      assert AnswerWaits(ps, phase, d);
    }
    forall u | 0 <= u < NR_TASKS && u != v && phase[u] == Idle ensures !(ps[u].flags.sending && ps[u].sendTo == c) {
      assert TaskOk(ps[u], u, phase);
    }
    ChangedProtocol(ps, phase, v, Sent(ps[v]), c, Idle);
  }

  lemma FetchIsTake(w: World, a: int)
    requires WorldOk(w) && Allowed(w, AwaitAnswer(a)) && w.phase[w.s.ready].Answering?
    ensures var v := w.phase[w.s.ready].server;
            && IsServer(v) && v in w.s.queues[w.s.ready]
            && SysReceive(w.s, v, a) == Done(Take(Stamp(w.s, a), v, a)) && Inv(Take(Stamp(w.s, a), v, a))
  {
    var c := w.s.ready;
    var v := w.phase[c].server;
    AnswerFetched(w.s.procs, w.phase, v, c);
    assert Source(w.s, v) == v;
    SourceIsQueued(w.s, v);
    StoreKeepsInv(w.s, a, Load(w.s.mem[c], a).(source := c));
    TakeKeepsInv(Stamp(w.s, a), v, a);
  }

  lemma FetchedWards(ps: seq<Proc>, phase: seq<Phase>, v: int, c: int)
    requires |ps| == |phase| == N && 0 <= v < NR_TASKS && IsPid(c) && phase[c].Answering?
    ensures SameWards(ps, phase, ps[v := Sent(ps[v])], phase[c := Idle], -1)
    ensures StillAsks(phase, phase[c := Idle], c, v)
  {
  }

  lemma FetchedCore(w: World, a: int, t: World)
    requires WorldOk(w) && Allowed(w, AwaitAnswer(a)) && w.phase[w.s.ready].Answering?
    requires var v := w.phase[w.s.ready].server;
             IsServer(v) && v in w.s.queues[w.s.ready]
               && t == w.(phase := w.phase[w.s.ready := Idle], s := Take(Stamp(w.s, a), v, a))
    ensures WorldOk(t)
  {
    var c := w.s.ready;
    var v := w.phase[c].server;
    FetchIsTake(w, a);
    AnswerFetched(w.s.procs, w.phase, v, c);
    FetchedWards(w.s.procs, w.phase, v, c);
    TakeLetters(w.s, w.phase, v, a, t.phase);
    QuietMove(w, t);
  }

  lemma AwaitFetchesKeepsWorld(w: World, a: int)
    requires WorldOk(w) && Allowed(w, AwaitAnswer(a)) && w.phase[w.s.ready].Answering?
    requires IsServer(w.phase[w.s.ready].server)
    ensures AwaitStep(w, a).Goes? && WorldOk(AwaitStep(w, a).w)
  {
    var c := w.s.ready;
    var v := w.phase[c].server;
    FetchIsTake(w, a);
    var t := w.(phase := w.phase[c := Idle], s := Take(Stamp(w.s, a), v, a));
    FetchedCore(w, a, t);
    assert AwaitStep(w, a) == Goes(t);
  }

  lemma AwaitBlocked(ps: seq<Proc>, phase: seq<Phase>, v: int, c: int, a: int)
    requires Protocol(ps, phase) && IsCaller(c) && IsPid(c) && phase[c] == Accepted(v) && Runnable(ps[c])
    ensures IsServer(v) && v != c && !(ps[v].flags.sending && ps[v].sendTo == c) && !ps[c].hasInt
    ensures var p := ps[c].(flags := ps[c].flags.(receiving := true), msg := a, recvFrom := v);
            Protocol(ps[c := p], phase[c := Blocked(v)])
  {
    assert c < NR_TASKS ==> TaskOk(ps[c], c, phase);
    assert c >= NR_TASKS ==> PhaseOk(ps[c], phase[c]);
    assert TaskOk(ps[v], v, phase);
    NobodyAwaitsAnswerOf(ps, phase, c);
    NobodyAnswers(ps, phase, c);
    ChangedProtocol(ps, phase, c, ps[c].(flags := ps[c].flags.(receiving := true), msg := a, recvFrom := v), c,
                    Blocked(v));
  }

  lemma AwaitIsBlocking(w: World, a: int)
    requires WorldOk(w) && Allowed(w, AwaitAnswer(a)) && w.phase[w.s.ready].Accepted?
    ensures var v := w.phase[w.s.ready].server;
            IsServer(v) && SysReceive(w.s, v, a) == Done(Reschedule(IpcSpec.Await(Stamp(w.s, a), v, a)))
    ensures CoreInv(IpcSpec.Await(Stamp(w.s, a), w.phase[w.s.ready].server, a))
  {
    var c := w.s.ready;
    var v := w.phase[c].server;
    AwaitBlocked(w.s.procs, w.phase, v, c, a);
    StoreKeepsInv(w.s, a, Load(w.s.mem[c], a).(source := c));
    AwaitKeepsCore(Stamp(w.s, a), v, a);
  }

  lemma BlockedWards(ps: seq<Proc>, phase: seq<Phase>, p: Proc, c: int, v: int)
    requires |ps| == |phase| == N && IsPid(c) && phase[c] == Accepted(v) && Kin(ps[c], p)
    ensures SameWards(ps, phase, ps[c := p], phase[c := Blocked(v)], -1)
    ensures StillAsks(phase, phase[c := Blocked(v)], c, c)
  {
  }

  lemma BlockedCore(w: World, a: int, u: World)
    requires WorldOk(w) && Allowed(w, AwaitAnswer(a)) && w.phase[w.s.ready].Accepted?
    requires var v := w.phase[w.s.ready].server;
             u == w.(s := IpcSpec.Await(Stamp(w.s, a), v, a), phase := w.phase[w.s.ready := Blocked(v)])
    ensures WorldCore(u)
  {
    var c := w.s.ready;
    var v := w.phase[c].server;
    AwaitIsBlocking(w, a);
    AwaitBlocked(w.s.procs, w.phase, v, c, a);
    BlockedWards(w.s.procs, w.phase, u.s.procs[c], c, v);
    AwaitLetters(w.s, w.phase, v, a, u.phase);
    QuietMove(w, u);
  }

  lemma AwaitBlocksKeepsWorld(w: World, a: int)
    requires WorldOk(w) && Allowed(w, AwaitAnswer(a)) && w.phase[w.s.ready].Accepted?
    requires IsServer(w.phase[w.s.ready].server)
    ensures AwaitStep(w, a).Goes? && WorldOk(AwaitStep(w, a).w)
  {
    var v := w.phase[w.s.ready].server;
    AwaitIsBlocking(w, a);
    var u := w.(s := Await(Stamp(w.s, a), v, a), phase := w.phase[w.s.ready := Blocked(v)]);
    BlockedCore(w, a, u);
    RescheduleKeepsWorld(u);
    assert AwaitStep(w, a) == Goes(u.(s := Reschedule(u.s)));
  }

  // ---------------------------------------------------------------- accepting a request

  /** The head of a serving task's queue is a caller that is calling it. */
  lemma QueueHeadIsCaller(s: State, phase: seq<Phase>, v: int)
    requires CoreInv(s) && Protocol(s.procs, phase) && IsServer(v) && phase[v] == Idle && s.queues[v] != []
    ensures var f := s.queues[v][0];
            IsPid(f) && IsCaller(f) && MayCall(f, v) && phase[f] == Sending(v) && s.procs[f].flags.sending
              && s.procs[f].sendTo == v
  {
    var f := s.queues[v][0];
    assert f in s.queues[v] && SendsTo(s.procs, f, v);
    assert f >= NR_TASKS ==> PhaseOk(s.procs[f], phase[f]);
    assert f < NR_TASKS ==> TaskOk(s.procs[f], f, phase);
  }

  lemma RequestAccepted(ps: seq<Proc>, phase: seq<Phase>, v: int, f: int)
    requires Protocol(ps, phase) && IsPid(f) && MayCall(f, v) && phase[f] == Sending(v) && AllLegal(ps)
    ensures Protocol(ps[f := Sent(ps[f])], phase[f := Accepted(v)])
    ensures Sent(ps[f]).flags == READY && ps[f].flags == SENDING
  {
    assert f < NR_TASKS ==> TaskOk(ps[f], f, phase);
    assert f >= NR_TASKS ==> PhaseOk(ps[f], phase[f]);
    assert Legal(ps[f]);
    forall d | 0 <= d < N && d != f && IsCaller(d) ensures !(phase[d].Answering? && phase[d].server == f) {
      assert AnswerWaits(ps, phase, d);
    }
    NobodyAnswers(ps, phase, f);
    ChangedProtocol(ps, phase, f, Sent(ps[f]), f, Accepted(v));
  }

  /** The head of the queue is served, whether the receive is for ANY or for INTERRUPT. */
  lemma AcceptIsTake(w: World, src: int, a: int)
    requires WorldOk(w) && Allowed(w, Accept(src, a)) && IsPid(Served(w.s, src))
    ensures var f := Served(w.s, src);
            f in w.s.queues[w.s.ready] && SysReceive(w.s, src, a) == Done(Take(Stamp(w.s, a), f, a))
    ensures Inv(Take(Stamp(w.s, a), Served(w.s, src), a))
  {
    SourceIsQueued(w.s, src);
    StoreKeepsInv(w.s, a, Load(w.s.mem[w.s.ready], a).(source := w.s.ready));
    TakeKeepsInv(Stamp(w.s, a), Served(w.s, src), a);
  }

  lemma ServedWards(ps: seq<Proc>, phase: seq<Phase>, f: int, v: int)
    requires |ps| == |phase| == N && IsPid(f) && 0 <= v < NR_TASKS && phase[f] == Sending(v)
    ensures SameWards(ps, phase, ps[f := Sent(ps[f])], phase[f := Accepted(v)], -1)
    ensures StillAsks(phase, phase[f := Accepted(v)], v, f)
  {
  }

  lemma ServedInHand(w: World, f: int)
    requires WorldOk(w) && IsUser(f) && w.phase[f] == Sending(TASK_MM) && w.s.ready == TASK_MM && w.actions == []
    ensures var qs, phase' := w.s.procs[f := Sent(w.s.procs[f])], w.phase[f := Accepted(TASK_MM)];
            var hand := Request(f, Letter(w.s, f));
            HandOk(qs, phase', hand, w.actions) && ManagerOk(qs[TASK_MM], hand, w.actions)
  {
    assert PhaseOk(w.s.procs[f], w.phase[f]);
  }

  lemma ServedCore(w: World, src: int, a: int, f: int, hand: Hand, t: World)
    requires WorldOk(w) && Allowed(w, Accept(src, a)) && f == Served(w.s, src) && IsPid(f) && f in w.s.queues[w.s.ready]
    requires hand == if w.s.ready == TASK_MM then Request(f, Letter(w.s, f)) else w.hand
    requires t == w.(phase := w.phase[f := Accepted(w.s.ready)], hand := hand, s := Take(Stamp(w.s, a), f, a))
    ensures WorldOk(t)
  {
    var v := w.s.ready;
    AcceptIsTake(w, src, a);
    QueueHeadIsCaller(w.s, w.phase, v);
    RequestAccepted(w.s.procs, w.phase, v, f);
    ServedWards(w.s.procs, w.phase, f, v);
    if v == TASK_MM {
      ServedInHand(w, f);
    }
    TakeLetters(w.s, w.phase, f, a, t.phase);
    QuietMove(w, t);
  }

  lemma AcceptServesKeepsWorld(w: World, src: int, a: int)
    requires WorldOk(w) && Allowed(w, Accept(src, a)) && IsPid(Served(w.s, src))
    ensures AcceptStep(w, src, a).Goes? && WorldOk(AcceptStep(w, src, a).w)
  {
    var v := w.s.ready;
    var f := Served(w.s, src);
    AcceptIsTake(w, src, a);
    var hand := if v == TASK_MM then Request(f, Letter(w.s, f)) else w.hand;
    var t := w.(phase := w.phase[f := Accepted(v)], hand := hand, s := Take(Stamp(w.s, a), f, a));
    ServedCore(w, src, a, f, hand, t);
    assert AcceptStep(w, src, a) == Goes(t);
  }

  /** A change in a task's has_int_msg, or a task blocking in a receive for ANY or INTERRUPT, keeps the protocol. */
  lemma TaskListens(ps: seq<Proc>, phase: seq<Phase>, v: int, p: Proc)
    requires Protocol(ps, phase) && 0 <= v < NR_TASKS && p.flags.sending == ps[v].flags.sending
    requires p.sendTo == ps[v].sendTo
    requires TaskOk(p, v, phase)
    ensures Protocol(ps[v := p], phase)
  {
    var qs := ps[v := p];
    forall i | NR_TASKS <= i < N ensures PhaseOk(qs[i], phase[i]) {
      assert PhaseOk(ps[i], phase[i]);
    }
    forall u | 0 <= u < NR_TASKS ensures TaskOk(qs[u], u, phase) {
      assert TaskOk(ps[u], u, phase);
    }
    forall c | 0 <= c < N && IsCaller(c) ensures AnswerWaits(qs, phase, c) {
      assert AnswerWaits(ps, phase, c);
    }
  }

  lemma SameKinSameWards(ps: seq<Proc>, phase: seq<Phase>, i: int, p: Proc)
    requires |ps| == |phase| == N && IsPid(i) && Kin(ps[i], p)
    ensures SameWards(ps, phase, ps[i := p], phase, -1)
  {
  }

  /** What changes for the protocol when a serving task takes an interrupt, or blocks in its receive. */
  lemma ListeningCore(w: World, p: Proc, t: World)
    requires WorldOk(w) && IsServer(w.s.ready) && CoreInv(t.s) && t == w.(s := t.s)
    requires ManagerOk(t.s.procs[TASK_MM], w.hand, w.actions)
    requires t.s.procs == w.s.procs[w.s.ready := p] && Kin(w.s.procs[w.s.ready], p)
    requires RequestsOk(t.s, w.phase)
    requires p.flags.sending == w.s.procs[w.s.ready].flags.sending && p.sendTo == w.s.procs[w.s.ready].sendTo
    requires TaskOk(p, w.s.ready, w.phase)
    ensures WorldCore(t)
  {
    var v := w.s.ready;
    TaskListens(w.s.procs, w.phase, v, p);
    SameKinSameWards(w.s.procs, w.phase, v, p);
    QuietMove(w, t);
  }

  lemma InterruptIsServed(w: World, src: int, a: int)
    requires WorldOk(w) && Allowed(w, Accept(src, a)) && w.s.procs[w.s.ready].hasInt
    ensures SysReceive(w.s, src, a) == Done(TakeInterrupt(Stamp(w.s, a), a)) && Inv(TakeInterrupt(Stamp(w.s, a), a))
  {
    ReceiveTakesInterrupt(w.s, src, a);
    StoreKeepsInv(w.s, a, Load(w.s.mem[w.s.ready], a).(source := w.s.ready));
    TakeInterruptKeepsInv(Stamp(w.s, a), a);
  }

  lemma InterruptServedCore(w: World, a: int, t: World)
    requires WorldOk(w) && IsServer(w.s.ready) && w.s.procs[w.s.ready].hasInt
    requires t == w.(s := TakeInterrupt(Stamp(w.s, a), a)) && CoreInv(t.s)
    ensures WorldCore(t)
  {
    var v := w.s.ready;
    assert TaskOk(w.s.procs[v], v, w.phase);
    SameLettersSameRequests(w.s, w.phase, t.s, w.phase);
    ListeningCore(w, w.s.procs[v].(hasInt := false), t);
  }

  lemma AcceptInterruptKeepsWorld(w: World, src: int, a: int)
    requires WorldOk(w) && Allowed(w, Accept(src, a)) && w.s.procs[w.s.ready].hasInt
    ensures AcceptStep(w, src, a).Goes? && WorldOk(AcceptStep(w, src, a).w)
  {
    InterruptIsServed(w, src, a);
    var t := w.(s := TakeInterrupt(Stamp(w.s, a), a));
    InterruptServedCore(w, a, t);
    assert AcceptStep(w, src, a) == Goes(t);
  }

  lemma NothingToServe(w: World, src: int, a: int)
    requires WorldOk(w) && Allowed(w, Accept(src, a)) && !w.s.procs[w.s.ready].hasInt && !IsPid(Served(w.s, src))
    ensures SysReceive(w.s, src, a) == Done(Reschedule(IpcSpec.Await(Stamp(w.s, a), src, a)))
    ensures CoreInv(IpcSpec.Await(Stamp(w.s, a), src, a))
  {
    assert !IsPid(Source(w.s, src));
    StoreKeepsInv(w.s, a, Load(w.s.mem[w.s.ready], a).(source := w.s.ready));
    AwaitKeepsCore(Stamp(w.s, a), src, a);
  }

  lemma AcceptBlocksKeepsWorld(w: World, src: int, a: int)
    requires WorldOk(w) && Allowed(w, Accept(src, a)) && !w.s.procs[w.s.ready].hasInt && !IsPid(Served(w.s, src))
    ensures AcceptStep(w, src, a).Goes? && WorldOk(AcceptStep(w, src, a).w)
  {
    var v := w.s.ready;
    var u := w.(s := Await(Stamp(w.s, a), src, a));
    NothingToServe(w, src, a);
    assert TaskOk(w.s.procs[v], v, w.phase);
    AwaitLetters(w.s, w.phase, src, a, w.phase);
    ListeningCore(w, u.s.procs[v], u);
    RescheduleKeepsWorld(u);
    assert AcceptStep(w, src, a) == Goes(u.(s := Reschedule(u.s)));
  }

  // ---------------------------------------------------------------- answering

  lemma AnswerTaken(ps: seq<Proc>, phase: seq<Phase>, v: int, d: int)
    requires Protocol(ps, phase) && IsServer(v) && IsPid(d) && IsCaller(d) && phase[d] == Blocked(v) && AllLegal(ps)
    requires !ps[d].flags.waiting && !ps[d].flags.hanging
    ensures ps[d].flags == RECEIVING && Awaits(ps[d], v)
    ensures Protocol(ps[d := Received(ps[d])], phase[d := Idle])
  {
    assert d < NR_TASKS ==> TaskOk(ps[d], d, phase);
    assert d >= NR_TASKS ==> PhaseOk(ps[d], phase[d]);
    assert Legal(ps[d]);
    NobodyAwaitsAnswerOf(ps, phase, d);
    NobodyAnswers(ps, phase, d);
    ChangedProtocol(ps, phase, d, Received(ps[d]), d, Idle);
  }

  lemma AnswerQueued(ps: seq<Proc>, phase: seq<Phase>, v: int, d: int, a: int)
    requires Protocol(ps, phase) && IsServer(v) && IsPid(d) && IsCaller(d) && phase[d] == Accepted(v) && d != v
    requires Runnable(ps[v]) && phase[v] == Idle && !ps[d].flags.waiting && !ps[d].flags.hanging
    ensures !Awaits(ps[d], v)
    ensures var p := ps[v].(flags := ps[v].flags.(sending := true), sendTo := d, msg := a);
            Protocol(ps[v := p], phase[d := Answering(v)])
  {
    assert d < NR_TASKS ==> TaskOk(ps[d], d, phase);
    assert d >= NR_TASKS ==> PhaseOk(ps[d], phase[d]);
    assert TaskOk(ps[v], v, phase);
    NobodyAwaitsAnswerOf(ps, phase, v);
    NobodyAwaitsAnswerOf(ps, phase, d);
    NobodyAnswers(ps, phase, d);
    ChangedProtocol(ps, phase, v, ps[v].(flags := ps[v].flags.(sending := true), sendTo := d, msg := a), d,
                    Answering(v));
  }

  /** What makes an answer to d proper: it is owed, and d is on nobody's list any more. */
  ghost predicate Answerable(w: World, d: int) {
    && WorldOk(w) && IsServer(w.s.ready) && w.phase[w.s.ready] == Idle && IsPid(d) && IsCaller(d)
    && Owed(w.phase[d], w.s.ready)
    && (w.hand.Request? ==> w.hand.from != d && w.s.ready != TASK_MM)
    && !w.s.procs[d].flags.waiting && !w.s.procs[d].flags.hanging
    && forall k :: 0 <= k < |w.actions| ==> Subject(w.actions[k]) != d
  }

  lemma AnsweredDuties(w: World, d: int, qs: seq<Proc>, phase': seq<Phase>)
    requires Answerable(w, d) && SameKin(w.s.procs, qs) && |phase'| == N
    requires forall i :: 0 <= i < N && i != d ==> phase'[i] == w.phase[i]
    requires ManagerOk(qs[TASK_MM], w.hand, w.actions)
    ensures Duties(qs, phase', w.hand, w.actions)
    ensures FamilyOk(qs, w.actions)
  {
    SameWardsSameActions(w.s.procs, w.phase, qs, phase', d, w.actions);
    SameKinSameFamily(w.s.procs, qs, w.actions);
  }

  lemma AnswerIsTaken(w: World, d: int, a: int)
    requires Answerable(w, d) && a != 0 && w.phase[d].Blocked?
    ensures var s1 := Stamp(w.s, a); var v := w.s.ready;
            Awaits(w.s.procs[d], v) && SysSend(w.s, d, a) == Done(Rendezvous(s1, v, d, a))
              && Inv(Rendezvous(s1, v, d, a))
  {
    var v := w.s.ready;
    AnswerClosesNoCycle(w.s.procs, w.phase, v, d);
    AnswerTaken(w.s.procs, w.phase, v, d);
    StoreKeepsInv(w.s, a, Load(w.s.mem[v], a).(source := v));
    RendezvousKeepsInv(Stamp(w.s, a), d, a);
  }

  lemma AnswerIsQueued(w: World, d: int, a: int)
    requires Answerable(w, d) && a != 0 && w.phase[d].Accepted?
    ensures var s1 := Stamp(w.s, a); var v := w.s.ready;
            && !Awaits(w.s.procs[d], v) && SysSend(w.s, d, a) == Done(Reschedule(Enqueue(s1, v, d, a)))
            && CoreInv(Enqueue(s1, v, d, a))
  {
    var v := w.s.ready;
    AnswerClosesNoCycle(w.s.procs, w.phase, v, d);
    AnswerQueued(w.s.procs, w.phase, v, d, a);
    StoreKeepsInv(w.s, a, Load(w.s.mem[v], a).(source := v));
    EnqueueKeepsCore(Stamp(w.s, a), d, a);
  }

  lemma OneKin(ps: seq<Proc>, i: int, p: Proc)
    requires 0 <= i < |ps| && Kin(ps[i], p)
    ensures SameKin(ps, ps[i := p])
  {
  }

  /** The world after an answer, from its parts. */
  lemma AnsweredCore(w: World, d: int, i: int, p: Proc, t: World)
    requires Answerable(w, d) && IsPid(i) && Kin(w.s.procs[i], p) && t.s.procs == w.s.procs[i := p] && t.hand == w.hand
    requires t.actions == w.actions
    requires CoreInv(t.s) && Protocol(t.s.procs, t.phase) && ManagerOk(t.s.procs[TASK_MM], w.hand, w.actions)
    requires forall j :: 0 <= j < N && j != d ==> t.phase[j] == w.phase[j]
    requires RequestsOk(t.s, t.phase)
    ensures WorldCore(t)
  {
    OneKin(w.s.procs, i, p);
    AnsweredDuties(w, d, t.s.procs, t.phase);
  }

  lemma OthersStillAsk(phase: seq<Phase>, d: int, ph: Phase, v: int)
    requires |phase| == N && IsPid(d) && 0 <= v < NR_TASKS && ph != Sending(TASK_MM)
    ensures StillAsks(phase, phase[d := ph], v, d) && StillAsks(phase, phase[d := ph], v, v)
  {
  }

  lemma AnswerTakenKeepsWorld(w: World, d: int, a: int)
    requires Answerable(w, d) && a != 0 && w.phase[d].Blocked?
    ensures AnswerStep(w, d, a).Goes? && WorldOk(AnswerStep(w, d, a).w)
  {
    var v := w.s.ready;
    AnswerIsTaken(w, d, a);
    AnswerTaken(w.s.procs, w.phase, v, d);
    var t := w.(phase := w.phase[d := Idle], notes := w.notes + [Answered(v, d, Outgoing(w.s, a))],
                s := Rendezvous(Stamp(w.s, a), v, d, a));
    OthersStillAsk(w.phase, d, Idle, v);
    RendezvousLetters(w.s, w.phase, d, a, t.phase);
    AnsweredCore(w, d, d, t.s.procs[d], t);
    assert AnswerStep(w, d, a) == Goes(t);
  }

  lemma AnswerQueuedCore(w: World, d: int, a: int, u: World)
    requires Answerable(w, d) && a != 0 && w.phase[d].Accepted?
    requires u == w.(phase := w.phase[d := Answering(w.s.ready)], s := Enqueue(Stamp(w.s, a), w.s.ready, d, a),
                     notes := w.notes + [Answered(w.s.ready, d, Outgoing(w.s, a))])
    ensures WorldCore(u)
  {
    var v := w.s.ready;
    AnswerIsQueued(w, d, a);
    AnswerQueued(w.s.procs, w.phase, v, d, a);
    OthersStillAsk(w.phase, d, Answering(v), v);
    EnqueueLetters(w.s, w.phase, d, a, u.phase);
    AnsweredCore(w, d, v, u.s.procs[v], u);
  }

  /** Every answer that is owed goes through, whether or not the caller has reached its receive. */
  lemma AnswerKeepsWorld(w: World, d: int, a: int)
    requires Answerable(w, d) && a != 0
    ensures AnswerStep(w, d, a).Goes? && WorldOk(AnswerStep(w, d, a).w)
  {
    if w.phase[d].Blocked? {
      AnswerTakenKeepsWorld(w, d, a);
    } else {
      var v := w.s.ready;
      AnswerIsQueued(w, d, a);
      var u := w.(phase := w.phase[d := Answering(v)], s := Enqueue(Stamp(w.s, a), v, d, a),
                  notes := w.notes + [Answered(v, d, Outgoing(w.s, a))]);
      AnswerQueuedCore(w, d, a, u);
      RescheduleKeepsWorld(u);
      assert AnswerStep(w, d, a) == Goes(u.(s := Reschedule(u.s)));
    }
  }

  lemma ReplyIsAnswerable(w: World, d: int, a: int)
    requires WorldOk(w) && Allowed(w, Reply(d, a))
    ensures Answerable(w, d)
  {
    var ps := w.s.procs;
    assert d < NR_TASKS ==> TaskOk(ps[d], d, w.phase);
    assert d >= NR_TASKS ==> PhaseOk(ps[d], w.phase[d]);
    forall k | 0 <= k < |w.actions| ensures Subject(w.actions[k]) != d {
      assert ActionOk(ps, w.phase, w.actions[k]);
    }
  }

  lemma ReplyKeepsWorld(w: World, d: int, a: int)
    requires WorldOk(w) && Allowed(w, Reply(d, a))
    ensures AnswerStep(w, d, a).Goes? && WorldOk(AnswerStep(w, d, a).w)
  {
    ReplyIsAnswerable(w, d, a);
    AnswerKeepsWorld(w, d, a);
  }

  // ---------------------------------------------------------------- the moves

  lemma CallKeepsWorld(w: World, v: int, a: int)
    requires WorldOk(w) && Allowed(w, Call(v, a))
    ensures CallStep(w, v, a).Goes? && WorldOk(CallStep(w, v, a).w)
  {
    if Awaits(w.s.procs[v], w.s.ready) {
      CallTakenKeepsWorld(w, v, a);
    } else {
      CallQueuedKeepsWorld(w, v, a);
    }
  }

  lemma AwaitKeepsWorld(w: World, a: int)
    requires WorldOk(w) && Allowed(w, AwaitAnswer(a)) && IsServer(w.phase[w.s.ready].server)
    ensures AwaitStep(w, a).Goes? && WorldOk(AwaitStep(w, a).w)
  {
    if w.phase[w.s.ready].Answering? {
      AwaitFetchesKeepsWorld(w, a);
    } else {
      AwaitBlocksKeepsWorld(w, a);
    }
  }

  lemma AcceptKeepsWorld(w: World, src: int, a: int)
    requires WorldOk(w) && Allowed(w, Accept(src, a))
    ensures AcceptStep(w, src, a).Goes? && WorldOk(AcceptStep(w, src, a).w)
  {
    if w.s.procs[w.s.ready].hasInt {
      AcceptInterruptKeepsWorld(w, src, a);
    } else if IsPid(Served(w.s, src)) {
      AcceptServesKeepsWorld(w, src, a);
    } else {
      AcceptBlocksKeepsWorld(w, src, a);
    }
  }
}
