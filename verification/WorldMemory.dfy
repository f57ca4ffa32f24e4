/**
 Memory in the runs of the combined machine: a message stays where it is until its process stores over it, has it
 stamped, receives into it, or gives up its slot to a child that is born there.
 */
module WorldMemory {
  import opened ProcTable
  import opened IpcSpec
  import opened IpcInv
  import opened IpcRuns
  import opened IpcFrame
  import opened Family
  import opened World
  import opened WorldInv
  import opened WorldManager
  import opened WorldRuns
  import opened WorldTurns

  /** The running process sends the message at a to d: it is stamped, and copied if d is waiting for it. */
  predicate SendTouches(w: World, d: int, a: int, i: int, x: int)
    requires ShapedWorld(w) && IsPid(d)
  {
    (i == w.s.ready && x == a) || (i == d && IsBuffer(w.s.procs[d], w.s.ready, x))
  }

  /** The move writes at address x of process i's memory. */
  ghost predicate Touches(w: World, e: Move, i: int, x: int)
    requires ShapedWorld(w) && IsPid(i)
  {
    var c := w.s.ready;
    match e
    case UserStore(a, _) => i == c && x == a
    case Call(v, a) => IsPid(v) && SendTouches(w, v, a, i, x)
    case AwaitAnswer(a) => i == c && x == a
    case Accept(_, a) => i == c && x == a
    case Reply(d, a) => IsPid(d) && SendTouches(w, d, a, i, x)
    case Handle => Births(w, e) && i == FirstFree(w.s.procs, 0)
    case Perform(a) =>
      w.actions != [] && !w.actions[0].Release? && IsPid(w.actions[0].to) && SendTouches(w, w.actions[0].to, a, i, x)
    case DiskIrq => i == TASK_HD && IsBuffer(w.s.procs[TASK_HD], INTERRUPT, x)
    case ClockTick(_) => false
    case Doze(_) => false
  }

  lemma TalkingTouches(w: World, e: Move, t: World, i: int, x: int)
    requires WorldOk(w) && IsMove(w, e, t) && Talks(e) && IsPid(i) && !Touches(w, e, i, x)
    ensures |t.s.mem| == N && Load(t.s.mem[i], x) == Load(w.s.mem[i], x)
  {
    TalkingIsAStep(w, e, t);
    OnlyMessagesAreWritten(w.s, EventOf(w, e), t.s, i, x);
  }

  lemma TellingTouches(w: World, a: int, t: World, i: int, x: int)
    requires WorldOk(w) && IsMove(w, Perform(a), t) && !w.actions[0].Release? && IsPid(i)
    requires !Touches(w, Perform(a), i, x)
    ensures |t.s.mem| == N && Load(t.s.mem[i], x) == Load(w.s.mem[i], x)
  {
    TellingIsAStep(w, a, t);
    var u := AboutToSend(w, a).s;
    OnlyMessagesAreWritten(u, SendMessage(w.actions[0].to, a), t.s, i, x);
  }

  lemma ManagingTouches(w: World, t: World, i: int)
    requires WorldOk(w) && IsMove(w, Handle, t) && IsPid(i) && !(Births(w, Handle) && i == FirstFree(w.s.procs, 0))
    ensures |t.s.mem| == N && t.s.mem[i] == w.s.mem[i]
  {
    HandlingFacts(w);
  }

  /** One move changes no message that it does not write: only a birth touches a memory as a whole, the newborn's. */
  lemma OnlyTouchedIsWritten(w: World, e: Move, t: World, i: int, x: int)
    requires WorldOk(w) && IsMove(w, e, t) && IsPid(i) && !Touches(w, e, i, x)
    ensures |t.s.mem| == N && Load(t.s.mem[i], x) == Load(w.s.mem[i], x)
  {
    if Talks(e) {
      TalkingTouches(w, e, t, i, x);
    } else if e.Handle? {
      ManagingTouches(w, t, i);
    } else if !w.actions[0].Release? {
      TellingTouches(w, e.a, t, i, x);
    }
  }

  /** Move k of the run leaves the message alone. */
  ghost predicate Spares(run: seq<World>, es: seq<Move>, i: int, x: int, k: int)
    requires IsPid(i) && 0 <= k < |es| < |run|
  {
    ShapedWorld(run[k]) && !Touches(run[k], es[k], i, x)
  }

  lemma LastsOneMove(run: seq<World>, es: seq<Move>, i: int, x: int, k: nat)
    requires IsWorldRun(run, es) && WorldOk(run[0]) && IsPid(i) && 0 < k < |run| && Spares(run, es, i, x, k - 1)
    ensures |run[k].s.mem| == |run[k - 1].s.mem| == N && Load(run[k].s.mem[i], x) == Load(run[k - 1].s.mem[i], x)
  {
    MoveInRun(run, es, k);
    OnlyTouchedIsWritten(run[k - 1], es[k - 1], run[k], i, x);
  }

  /** In any run of the combined machine a message stays in memory until a move writes it. */
  lemma {:induction false} MemoryLastsInRuns(run: seq<World>, es: seq<Move>, i: int, x: int, k: nat)
    requires IsWorldRun(run, es) && WorldOk(run[0]) && IsPid(i) && k < |run|
    requires forall j {:trigger Spares(run, es, i, x, j)} :: 0 <= j < |es| ==> Spares(run, es, i, x, j)
    ensures |run[k].s.mem| == |run[0].s.mem| == N && Load(run[k].s.mem[i], x) == Load(run[0].s.mem[i], x)
  {
    if k == 0 {
      RunIsShaped(run, es, 0);
    } else {
      MemoryLastsInRuns(run, es, i, x, k - 1);
      assert Spares(run, es, i, x, k - 1);
      LastsOneMove(run, es, i, x, k);
    }
  }
}
