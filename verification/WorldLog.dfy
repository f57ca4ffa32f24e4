/**
 The history of calls and answers is the kernel's own log of the messages posted, and the report
 of a death is one of these messages: the next answer, to the parent, with the status and the number of the child.
 */
module WorldLog {
  import opened ProcTable
  import opened IpcSpec
  import opened IpcRuns
  import opened Family
  import opened World
  import opened WorldInv
  import opened WorldManager
  import opened WorldRuns

  // ---------------------------------------------------------------- what has been posted

  /** The messages posted according to the kernel's log. */
  function PostsOf(t: seq<Entry>): seq<Entry> {
    if t == [] then []
    else PostsOf(t[..|t| - 1]) + if t[|t| - 1].Posted? then [t[|t| - 1]] else []
  }

  /** The messages posted according to the history. */
  function PostsIn(notes: seq<Note>): seq<Entry> {
    if notes == [] then []
    else
      PostsIn(notes[..|notes| - 1]) +
      match notes[|notes| - 1]
      case Called(c, v, m) => [Posted(c, v, m)]
      case Answered(v, c, m) => [Posted(v, c, m)]
      case _ => []
  }

  lemma PostsSnoc(t: seq<Entry>, e: Entry)
    ensures PostsOf(t + [e]) == PostsOf(t) + if e.Posted? then [e] else []
  {
    assert (t + [e])[..|t|] == t;
  }

  lemma NotesSnoc(notes: seq<Note>, x: Note)
    ensures PostsIn(notes + [x]) == PostsIn(notes) + match x
                                                     case Called(c, v, m) => [Posted(c, v, m)]
                                                     case Answered(v, c, m) => [Posted(v, c, m)]
                                                     case _ => []
  {
    assert (notes + [x])[..|notes|] == notes;
  }

  /** A send that goes through posts one message: what the caller is sending, stamped with its number. */
  lemma SendPosts(s: State, d: int, a: int, t: State)
    requires Shaped(s) && IsPid(d) && SysSend(s, d, a) == Done(t)
    ensures PostsOf(t.trace) == PostsOf(s.trace) + [Posted(s.ready, d, Outgoing(s, a))]
  {
    var c := s.ready;
    var e := Posted(c, d, Outgoing(s, a));
    PostsSnoc(s.trace, e);
    PostsSnoc(s.trace + [e], Taken(d, c, Outgoing(s, a)));
    assert s.trace + [e, Taken(d, c, Outgoing(s, a))] == s.trace + [e] + [Taken(d, c, Outgoing(s, a))];
  }

  /** Receiving, interrupts and time post nothing. */
  lemma ReceivePostsNothing(s: State, src: int, a: int, t: State)
    requires Shaped(s) && ValidSource(src) && SysReceive(s, src, a) == Done(t)
    ensures PostsOf(t.trace) == PostsOf(s.trace)
  {
    if |t.trace| > |s.trace| {
      var e := t.trace[|s.trace|];
      assert t.trace == s.trace + [e];
      PostsSnoc(s.trace, e);
    }
  }

  lemma InterruptPostsNothing(s: State, p: int, t: State)
    requires Shaped(s) && IsPid(p) && Interrupt(s, p) == Done(t)
    ensures PostsOf(t.trace) == PostsOf(s.trace)
  {
    PostsSnoc(s.trace, Interrupted(p));
  }

  /** A death in the history is followed by the message that reports it, and only callers are answered. */
  predicate Told(notes: seq<Note>, k: int)
    requires 0 <= k < |notes|
  {
    && (notes[k].Answered? ==> IsCaller(notes[k].client))
    && (notes[k].Reaped? ==>
          && k + 1 < |notes| && notes[k + 1].Answered?
          && notes[k + 1].server == TASK_MM && notes[k + 1].client == notes[k].to
          && notes[k + 1].m.kind == SYSCALL_RET && notes[k + 1].m.i1 == notes[k].status
          && notes[k + 1].m.i2 == notes[k].child)
  }

  ghost predicate AllTold(notes: seq<Note>) {
    forall k {:trigger Told(notes, k)} :: 0 <= k < |notes| ==> Told(notes, k)
  }

  ghost predicate Recorded(w: World) {
    PostsIn(w.notes) == PostsOf(w.s.trace) && AllTold(w.notes)
  }

  lemma ToldStaysTold(notes: seq<Note>, more: seq<Note>)
    requires AllTold(notes) && AllTold(more)
    ensures AllTold(notes + more)
  {
    forall k | 0 <= k < |notes + more| ensures Told(notes + more, k) {
      if k < |notes| {
        assert Told(notes, k);
      } else {
        assert Told(more, k - |notes|);
      }
    }
  }

  /** One more note, which reports no death and answers at most a caller. */
  lemma OneMoreTold(notes: seq<Note>, x: Note)
    requires AllTold(notes) && !x.Reaped? && (x.Answered? ==> IsCaller(x.client))
    ensures AllTold(notes + [x])
  {
    assert Told([x], 0);
    ToldStaysTold(notes, [x]);
  }

  // ---------------------------------------------------------------- the moves

  lemma SilentIsRecorded(w: World, t: World)
    requires Recorded(w) && PostsOf(t.s.trace) == PostsOf(w.s.trace)
    requires t.notes == w.notes
    ensures Recorded(t)
  {
  }

  lemma NotingIsRecorded(w: World, x: Note, t: World)
    requires Recorded(w) && t.notes == w.notes + [x] && t.s.trace == w.s.trace && !x.Called? && !x.Answered?
    requires !x.Reaped?
    ensures Recorded(t)
  {
    NotesSnoc(w.notes, x);
    OneMoreTold(w.notes, x);
  }

  lemma CallIsRecorded(w: World, v: int, a: int, t: World)
    requires ShapedWorld(w) && Recorded(w) && IsServer(v) && CallStep(w, v, a) == Goes(t)
    ensures Recorded(t)
  {
    var x := Called(w.s.ready, v, Outgoing(w.s, a));
    SendPosts(w.s, v, a, t.s);
    NotesSnoc(w.notes, x);
    OneMoreTold(w.notes, x);
  }

  lemma AnswerNotes(w: World, d: int, a: int, t: World)
    requires ShapedWorld(w) && IsPid(d) && IsCaller(d) && AnswerStep(w, d, a) == Goes(t)
    ensures t.notes == w.notes + [Answered(w.s.ready, d, Outgoing(w.s, a))]
    ensures PostsOf(t.s.trace) == PostsOf(w.s.trace) + [Posted(w.s.ready, d, Outgoing(w.s, a))]
  {
    SendPosts(w.s, d, a, t.s);
  }

  lemma AnswerIsRecorded(w: World, d: int, a: int, t: World)
    requires ShapedWorld(w) && Recorded(w) && IsPid(d) && IsCaller(d) && AnswerStep(w, d, a) == Goes(t)
    ensures Recorded(t)
  {
    var x := Answered(w.s.ready, d, Outgoing(w.s, a));
    AnswerNotes(w, d, a, t);
    NotesSnoc(w.notes, x);
    OneMoreTold(w.notes, x);
  }

  lemma AwaitIsRecorded(w: World, a: int, t: World)
    requires ShapedWorld(w) && Recorded(w) && (w.phase[w.s.ready].Accepted? || w.phase[w.s.ready].Answering?)
    requires IsServer(w.phase[w.s.ready].server) && AwaitStep(w, a) == Goes(t)
    ensures Recorded(t)
  {
    ReceivePostsNothing(w.s, w.phase[w.s.ready].server, a, t.s);
    SilentIsRecorded(w, t);
  }

  lemma AcceptIsRecorded(w: World, src: int, a: int, t: World)
    requires ShapedWorld(w) && Recorded(w) && (src == ANY || src == INTERRUPT) && AcceptStep(w, src, a) == Goes(t)
    ensures Recorded(t)
  {
    ReceivePostsNothing(w.s, src, a, t.s);
    SilentIsRecorded(w, t);
  }

  lemma HandleIsRecorded(w: World, t: World)
    requires WorldOk(w) && Recorded(w) && Allowed(w, Handle) && NativesStay(w.s.procs) && HandleStep(w) == Goes(t)
    ensures Recorded(t)
  {
    HandlingFacts(w);
    if t.notes == w.notes {
      SilentIsRecorded(w, t);
    } else {
      NotingIsRecorded(w, t.notes[|w.notes|], t);
    }
  }

  /** The report of a death and the message that carries it are noted in one move. */
  lemma ReportedTogether(w: World, child: int, to: int, status: int, m: Message, t: World)
    requires Recorded(w) && IsCaller(to) && m.kind == SYSCALL_RET && m.i1 == status && m.i2 == child
    requires t.notes == w.notes + [Reaped(child, to, status)] + [Answered(TASK_MM, to, m)]
    requires PostsOf(t.s.trace) == PostsOf(w.s.trace) + [Posted(TASK_MM, to, m)]
    ensures Recorded(t)
  {
    var death, answer := Reaped(child, to, status), Answered(TASK_MM, to, m);
    NotesSnoc(w.notes, death);
    NotesSnoc(w.notes + [death], answer);
    assert t.notes == w.notes + [death, answer];
    assert Told([death, answer], 0) && Told([death, answer], 1);
    ToldStaysTold(w.notes, [death, answer]);
  }

  lemma PerformIsRecorded(w: World, a: int, t: World)
    requires WorldOk(w) && Recorded(w) && Allowed(w, Perform(a)) && !w.actions[0].Release?
    requires PerformStep(w, a) == Goes(t)
    ensures Recorded(t)
  {
    var x := w.actions[0];
    var mid := AboutToSend(w, a);
    assert ActionOk(w.s.procs, w.phase, x);
    if x.Reap? {
      AnswerNotes(mid, x.to, a, t);
      ReportedTogether(w, x.child, x.to, x.m.i1, Outgoing(mid.s, a), t);
    } else {
      SilentIsRecorded(w, mid);
      AnswerIsRecorded(mid, x.to, a, t);
    }
  }

  lemma MoveIsRecorded(w: World, e: Move, t: World)
    requires WorldOk(w) && Recorded(w) && IsMove(w, e, t)
    ensures Recorded(t)
  {
    if e.Handle? || e.Perform? {
      ManagingIsRecorded(w, e, t);
    } else if e.Call? || e.Reply? {
      SendingIsRecorded(w, e, t);
    } else {
      QuietIsRecorded(w, e, t);
    }
  }

  lemma ManagingIsRecorded(w: World, e: Move, t: World)
    requires WorldOk(w) && Recorded(w) && IsMove(w, e, t) && (e.Handle? || e.Perform?)
    ensures Recorded(t)
  {
    match e
    case Handle => HandleIsRecorded(w, t);
    case Perform(a) =>
      if w.actions[0].Release? { NotingIsRecorded(w, Freed(w.actions[0].child), t); }
        else { PerformIsRecorded(w, a, t); }
  }

  lemma SendingIsRecorded(w: World, e: Move, t: World)
    requires ShapedWorld(w) && Recorded(w) && IsMove(w, e, t) && (e.Call? || e.Reply?)
    ensures Recorded(t)
  {
    match e
    case Call(v, a) => CallIsRecorded(w, v, a, t);
    case Reply(d, a) => AnswerIsRecorded(w, d, a, t);
  }

  lemma QuietIsRecorded(w: World, e: Move, t: World)
    requires ShapedWorld(w) && Recorded(w) && IsMove(w, e, t)
    requires e.AwaitAnswer? || e.Accept? || e.UserStore? || e.DiskIrq? || e.ClockTick? || e.Doze?
    ensures Recorded(t)
  {
    match e
    case AwaitAnswer(a) => AwaitIsRecorded(w, a, t);
    case Accept(src, a) => AcceptIsRecorded(w, src, a, t);
    case DiskIrq => InterruptPostsNothing(w.s, TASK_HD, t.s);
    case _ => SilentIsRecorded(w, t);
  }

  // ---------------------------------------------------------------- runs

  lemma {:induction false} RunIsRecorded(run: seq<World>, es: seq<Move>, i: nat)
    requires IsWorldRun(run, es) && WorldOk(run[0]) && Recorded(run[0]) && i < |run|
    ensures Recorded(run[i])
  {
    if i > 0 {
      RunIsRecorded(run, es, i - 1);
      MoveInRun(run, es, i);
      MoveIsRecorded(run[i - 1], es[i - 1], run[i]);
    }
  }

  /**
   In every run from boot the calls and answers of the history are, in order, exactly the messages that
   the kernel has logged as posted, and each report of a death is followed by the memory manager's
   message to the parent that carries the status and the number of the child.
   */
  lemma HistoryIsTheLog(run: seq<World>, es: seq<Move>, mem: seq<Memory>, memorySize: int, i: nat)
    requires |mem| == N && IsWorldRun(run, es) && run[0] == BootWorld(mem, memorySize) && i < |run|
    ensures PostsIn(run[i].notes) == PostsOf(run[i].s.trace)
    ensures forall k :: 0 <= k < |run[i].notes| ==> Told(run[i].notes, k)
  {
    BootIsOk(mem, memorySize);
    RunIsRecorded(run, es, i);
  }

  // ---------------------------------------------------------------- what the servers are given

  const GET_TICKS := 2
  const GET_PID := 3
  const MSGSLEEP := 5
  const GETTIME := 6
  const READ := 9
  const DEV_OPEN := 1001

  /** The messages that the loop of server v has a case for; any other one makes it panic. */
  predicate Understands(v: int, m: Message) {
    if v == TASK_SYS then m.kind in {GET_TICKS, GET_PID, MSGSLEEP, GETTIME}
    else if v == TASK_HD then m.kind == DEV_OPEN
    else if v == TASK_FS then m.kind == READ
    else m.kind in {FORK, EXIT, WAIT}
  }

  lemma {:induction false} PostIsInLog(t: seq<Entry>, e: Entry)
    requires e in t && e.Posted?
    ensures e in PostsOf(t)
  {
    var n := |t| - 1;
    if t[n] != e {
      assert t == t[..n] + [t[n]];
      PostIsInLog(t[..n], e);
    }
  }

  /** A message that the history has as posted was called or answered. */
  ghost predicate IsNoted(notes: seq<Note>, from: int, to: int, m: Message) {
    Called(from, to, m) in notes || Answered(from, to, m) in notes
  }

  lemma {:induction false} PostIsNoted(notes: seq<Note>, from: int, to: int, m: Message)
    requires Posted(from, to, m) in PostsIn(notes)
    ensures IsNoted(notes, from, to, m)
  {
    var n := |notes| - 1;
    assert notes == notes[..n] + [notes[n]];
    if Posted(from, to, m) in PostsIn(notes[..n]) {
      PostIsNoted(notes[..n], from, to, m);
    }
  }

  lemma TakenWasNoted(w: World, k: nat)
    requires WorldOk(w) && Recorded(w) && k < |w.s.trace| && w.s.trace[k].Taken?
    ensures var e := w.s.trace[k]; IsNoted(w.notes, e.from, e.receiver, e.m)
  {
    var t, e := w.s.trace, w.s.trace[k];
    SourcesAreAuthentic(t, k);
    var j: nat :| j < k && t[j] == Posted(e.from, e.receiver, e.m);
    assert t[j] in t;
    PostIsInLog(t, t[j]);
    PostIsNoted(w.notes, e.from, e.receiver, e.m);
  }

  /**
   In every run from boot, whatever a server takes is a message that it was called with, or an answer to its own
   call. So if callers send only what the servers understand, no server's loop meets a message that makes it panic.
   */
  lemma ServersAreUnderstood(run: seq<World>, es: seq<Move>, mem: seq<Memory>, memorySize: int, i: nat, k: nat)
    requires |mem| == N && IsWorldRun(run, es) && run[0] == BootWorld(mem, memorySize) && i < |run|
    requires k < |run[i].s.trace| && run[i].s.trace[k].Taken? && IsServer(run[i].s.trace[k].receiver)
    requires forall x :: x in run[i].notes && x.Called? ==> Understands(x.server, x.m)
    ensures var e := run[i].s.trace[k];
            || (Called(e.from, e.receiver, e.m) in run[i].notes && Understands(e.receiver, e.m))
            || (e.receiver == TASK_FS && Answered(e.from, TASK_FS, e.m) in run[i].notes)
  {
    var w := run[i];
    var e := w.s.trace[k];
    BootIsOk(mem, memorySize);
    RunStaysOk(run, es, i);
    RunIsRecorded(run, es, i);
    TakenWasNoted(w, k);
    if Answered(e.from, e.receiver, e.m) in w.notes {
      var j :| 0 <= j < |w.notes| && w.notes[j] == Answered(e.from, e.receiver, e.m);
      assert Told(w.notes, j);
    }
  }
}
