/**
 What schedule() does to the process table, and the facts about one call that
 the theorems over whole runs rest on.
 */
module SchedSpec {
  import opened ProcTable

  predicate Runnable(p: Proc) {
    p.flags == READY
  }

  /** A sleeper whose deadline has come loses its PROC_SLEEP bit. */
  function Wake(p: Proc, now: int): Proc {
    if p.flags.sleeping && p.wakeUp <= now
    then p.(flags := p.flags.(sleeping := false), wakeUp := 0)
    else p
  }

  function WakeAll(ps: seq<Proc>, now: int): seq<Proc> {
    seq(|ps|, i requires 0 <= i < |ps| => Wake(ps[i], now))
  }

  function Refill(p: Proc): Proc {
    if Runnable(p) then p.(ticks := p.priority) else p
  }

  function RefillAll(ps: seq<Proc>): seq<Proc> {
    seq(|ps|, i requires 0 <= i < |ps| => Refill(ps[i]))
  }

  ghost predicate SomeTicksLeft(ps: seq<Proc>) {
    exists i :: 0 <= i < |ps| && Runnable(ps[i]) && ps[i].ticks > 0
  }

  /** The table a call of schedule() leaves behind: an epoch ends only when no runnable process has ticks. */
  ghost function Scheduled(ps: seq<Proc>, now: int): seq<Proc> {
    var woken := WakeAll(ps, now);
    if SomeTicksLeft(woken) then woken else RefillAll(woken)
  }

  /** k is the lowest-numbered runnable process among those with the most ticks, and it has some. */
  ghost predicate IsPick(ps: seq<Proc>, k: int) {
    && 0 <= k < |ps|
    && Runnable(ps[k])
    && ps[k].ticks > 0
    && forall i :: 0 <= i < |ps| && Runnable(ps[i]) ==>
                     ps[i].ticks <= ps[k].ticks && (i < k ==> ps[i].ticks < ps[k].ticks)
  }

  ghost function Pick(ps: seq<Proc>): int {
    if exists k :: IsPick(ps, k) then var k :| IsPick(ps, k); k else 0
  }

  lemma PickIsUnique(ps: seq<Proc>, k: int)
    requires IsPick(ps, k)
    ensures Pick(ps) == k
  {
  }

  lemma {:induction false} PickExists(ps: seq<Proc>)
    requires SomeTicksLeft(ps)
    ensures IsPick(ps, Pick(ps))
  {
    var n := |ps| - 1;
    var front := ps[..n];
    if SomeTicksLeft(front) {
      PickExists(front);
      var k := Pick(front);
      if Runnable(ps[n]) && ps[n].ticks > ps[k].ticks {
        assert IsPick(ps, n);
      } else {
        assert forall i :: 0 <= i < n ==> ps[i] == front[i];
        assert IsPick(ps, k);
      }
    } else {
      assert forall i :: 0 <= i < n ==> ps[i] == front[i];
      assert IsPick(ps, n);
    }
  }

  /** The idle-loop guarantee: the terminal task never blocks and has a positive priority. */
  predicate TtyRuns(ps: seq<Proc>) {
    |ps| == N && Runnable(ps[TASK_TTY]) && ps[TASK_TTY].priority > 0
  }

  lemma ScheduleFindsAProcess(ps: seq<Proc>, now: int)
    requires TtyRuns(ps)
    ensures TtyRuns(Scheduled(ps, now))
    ensures SomeTicksLeft(Scheduled(ps, now))
    ensures IsPick(Scheduled(ps, now), Pick(Scheduled(ps, now)))
  {
    var woken := WakeAll(ps, now);
    assert woken[TASK_TTY] == ps[TASK_TTY];
    if !SomeTicksLeft(woken) {
      var refilled := RefillAll(woken);
      assert refilled[TASK_TTY].ticks > 0;
      assert SomeTicksLeft(refilled);
    }
    PickExists(Scheduled(ps, now));
  }

  /** q is p as far as IPC can tell: only ticks, the deadline and an expired sleep may differ. */
  predicate SameButSchedule(p: Proc, q: Proc) {
    && q == p.(ticks := q.ticks, wakeUp := q.wakeUp, flags := p.flags.(sleeping := q.flags.sleeping))
    && (q.flags.sleeping ==> p.flags.sleeping)
  }

  lemma ScheduledIsSame(ps: seq<Proc>, now: int)
    ensures |Scheduled(ps, now)| == |ps|
    ensures forall i :: 0 <= i < |ps| ==> SameButSchedule(ps[i], Scheduled(ps, now)[i])
  {
  }

  // ---------------------------------------------------------------- one call, field by field

  /** p is runnable once a sleeper whose deadline has come is awake. */
  predicate CanRun(p: Proc, now: int) {
    p.flags == READY || (p.flags == PROC_SLEEP && p.wakeUp <= now)
  }

  /** A call of schedule() finds that all the runnable processes have used up their ticks. */
  ghost predicate EpochEnds(ps: seq<Proc>, now: int) {
    forall j :: 0 <= j < |ps| && CanRun(ps[j], now) ==> ps[j].ticks <= 0
  }

  /**
   Who gets ticks, who wakes up and who is selected. Ticks are given out, as many as the priority, to the runnable
   processes alone, and only when none of them has any left; blocked processes keep what they have.
   */
  lemma ScheduleMeetsItsDescription(ps: seq<Proc>, now: int, i: int)
    requires 0 <= i < |ps|
    ensures |Scheduled(ps, now)| == |ps|
    ensures var p, q := ps[i], Scheduled(ps, now)[i];
            && q.ticks == (if CanRun(p, now) && EpochEnds(ps, now) then p.priority else p.ticks)
            && (q.flags.sleeping <==> p.flags.sleeping && p.wakeUp > now)
            && q.wakeUp == (if p.flags.sleeping && p.wakeUp <= now then 0 else p.wakeUp)
            && q == p.(flags := p.flags.(sleeping := q.flags.sleeping), wakeUp := q.wakeUp, ticks := q.ticks)
  {
    EndOfEpoch(ps, now);
    assert WakeAll(ps, now)[i] == Wake(ps[i], now);
  }

  lemma EndOfEpoch(ps: seq<Proc>, now: int)
    ensures EpochEnds(ps, now) <==> !SomeTicksLeft(WakeAll(ps, now))
  {
    var woken := WakeAll(ps, now);
    forall j | 0 <= j < |ps|
      ensures (Runnable(woken[j]) <==> CanRun(ps[j], now)) && woken[j].ticks == ps[j].ticks
    {
      assert woken[j] == Wake(ps[j], now);
    }
    if !EpochEnds(ps, now) {
      var j :| 0 <= j < |ps| && CanRun(ps[j], now) && ps[j].ticks > 0;
      assert Runnable(woken[j]);
    }
  }

  /** The process selected is runnable, has ticks, and has more than any runnable one before it and as many as any. */
  lemma SelectedHasMostTicks(ps: seq<Proc>, now: int, i: int)
    requires TtyRuns(ps) && 0 <= i < |ps|
    ensures var qs := Scheduled(ps, now); var r := Pick(qs);
            && 0 <= r < |qs| == |ps| && qs[r].flags == READY && qs[r].ticks > 0
            && (qs[i].flags == READY ==> qs[i].ticks <= qs[r].ticks && (i < r ==> qs[i].ticks < qs[r].ticks))
  {
    ScheduleFindsAProcess(ps, now);
    assert IsPick(Scheduled(ps, now), Pick(Scheduled(ps, now)));
  }
}
