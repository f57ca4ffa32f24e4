/**
 The graph of blocked senders: why the deadlock check before every send keeps it
 free of cycles, and what that means for every chain of blocked senders.
 */
module WaitGraph {
  import opened ProcTable
  import opened IpcSpec

  /** b's edges are a's. */
  ghost predicate SameEdges(a: seq<Proc>, b: seq<Proc>) {
    |a| == |b| && forall i :: 0 <= i < |a| ==>
                                a[i].flags.sending == b[i].flags.sending
                                  && (a[i].flags.sending ==> a[i].sendTo == b[i].sendTo)
  }

  ghost predicate FewerEdges(a: seq<Proc>, b: seq<Proc>) {
    |a| == |b| && forall i :: 0 <= i < |a| && b[i].flags.sending ==>
                                a[i].flags.sending && a[i].sendTo == b[i].sendTo
  }

  lemma FewerEdgesSameRank(a: seq<Proc>, b: seq<Proc>)
    requires Acyclic(a) && FewerEdges(a, b)
    ensures Acyclic(b)
  {
    var rank :| RankOk(a, rank);
    forall i | 0 <= i < |b| ensures Descends(b, rank, i) {
      assert Descends(a, rank, i);
    }
    assert RankOk(b, rank);
  }

  lemma SameEdgesSameRank(a: seq<Proc>, b: seq<Proc>)
    requires Acyclic(a) && SameEdges(a, b)
    ensures Acyclic(b)
  {
    FewerEdgesSameRank(a, b);
  }

  /** Following one edge keeps or loses reachability of c exactly as far as c is further on. */
  lemma ReachesStep(ps: seq<Proc>, x: int, c: int)
    requires 0 <= x < |ps| && ps[x].flags.sending && x != c
    ensures Reaches(ps, x, c) <==> Reaches(ps, ps[x].sendTo, c)
  {
    if Reaches(ps, x, c) {
      var n: nat :| Hop(ps, x, n) == c;
      assert Hop(ps, ps[x].sendTo, n - 1) == c;
    }
    if Reaches(ps, ps[x].sendTo, c) {
      var n: nat :| Hop(ps, ps[x].sendTo, n) == c;
      assert Hop(ps, x, n + 1) == c;
    }
  }

  /** An edge from c to dest closes no cycle when dest does not lead back to c. */
  lemma NewEdgeKeepsAcyclic(ps: seq<Proc>, c: int, dest: int, qs: seq<Proc>)
    requires Acyclic(ps) && 0 <= c < |ps| && 0 <= dest < |ps| && |qs| == |ps|
    requires !ps[c].flags.sending && !Reaches(ps, dest, c)
    requires qs[c].flags.sending && qs[c].sendTo == dest
    requires forall i :: 0 <= i < |ps| && i != c ==> qs[i] == ps[i]
    ensures Acyclic(qs)
  {
    var rank :| RankOk(ps, rank);
    var lifted := seq(|ps|, i requires 0 <= i < |ps| =>
      if Reaches(ps, i, c) then rank[i] + rank[dest] + 1 else rank[i]);
    forall i | 0 <= i < |qs| ensures Descends(qs, lifted, i) {
      assert Descends(ps, rank, i);
      if i == c {
        assert Hop(ps, c, 0) == c;
      } else if ps[i].flags.sending {
        ReachesStep(ps, i, c);
      }
    }
    assert RankOk(qs, lifted);
  }

  /** Ranks fall along every chain. */
  lemma {:induction false} HopLowersRank(ps: seq<Proc>, rank: seq<nat>, a: int, n: nat)
    requires RankOk(ps, rank) && 0 <= a < |ps| && Hop(ps, a, n) != NIL
    ensures 0 <= Hop(ps, a, n) < |ps| && rank[Hop(ps, a, n)] + n <= rank[a]
    decreases n
  {
    if n > 0 {
      assert Descends(ps, rank, a);
      HopLowersRank(ps, rank, ps[a].sendTo, n - 1);
    }
  }

  /** In an acyclic graph no process waits, however indirectly, for itself. */
  lemma NoProcessWaitsForItself(ps: seq<Proc>, a: int, n: nat)
    requires Acyclic(ps) && 0 <= a < |ps| && n > 0
    ensures Hop(ps, a, n) != a
  {
    var rank :| RankOk(ps, rank);
    if Hop(ps, a, n) == a {
      HopLowersRank(ps, rank, a, n);
    }
  }

  /** Every chain of blocked senders ends at a process that is not blocked in a send. */
  lemma {:induction false} ChainEnds(ps: seq<Proc>, rank: seq<nat>, a: int) returns (n: nat)
    requires RankOk(ps, rank) && 0 <= a < |ps|
    ensures 0 <= Hop(ps, a, n) < |ps| && !ps[Hop(ps, a, n)].flags.sending
    decreases rank[a]
  {
    if ps[a].flags.sending {
      assert Descends(ps, rank, a);
      var k := ChainEnds(ps, rank, ps[a].sendTo);
      n := k + 1;
    } else {
      n := 0;
    }
  }

  lemma EveryChainEnds(ps: seq<Proc>, a: int)
    requires Acyclic(ps) && 0 <= a < |ps|
    ensures exists n: nat :: 0 <= Hop(ps, a, n) < |ps| && !ps[Hop(ps, a, n)].flags.sending
  {
    var rank :| RankOk(ps, rank);
    var n := ChainEnds(ps, rank, a);
  }

  /** A chain read one step further. */
  lemma {:induction false} HopSnoc(ps: seq<Proc>, a: int, n: nat)
    ensures Hop(ps, a, n + 1) ==
            var b := Hop(ps, a, n);
            if 0 <= b < |ps| && ps[b].flags.sending then ps[b].sendTo else NIL
    decreases n
  {
    if n == 0 {
      assert 0 <= a < |ps| && ps[a].flags.sending ==> Hop(ps, a, 1) == Hop(ps, ps[a].sendTo, 0);
    } else if 0 <= a < |ps| && ps[a].flags.sending {
      HopSnoc(ps, ps[a].sendTo, n - 1);
    }
  }

  /** Nothing lies beyond a process that is not blocked in a send. */
  lemma {:induction false} NothingPastEnd(ps: seq<Proc>, a: int, n: nat, m: nat)
    requires n < m
    requires 0 <= Hop(ps, a, n) < |ps| && !ps[Hop(ps, a, n)].flags.sending
    ensures Hop(ps, a, m) == NIL
    decreases m
  {
    if m > n + 1 {
      NothingPastEnd(ps, a, n, m - 1);
    }
    HopSnoc(ps, a, m - 1);
  }

  // ---------------------------------------------------------------- chains

  /** Processes that are blocked one after the other: each but the last is SENDING to the next. */
  ghost predicate IsWaitChain(ps: seq<Proc>, chain: seq<int>) {
    && chain != []
    && forall k :: 0 <= k < |chain| - 1 ==>
         0 <= chain[k] < |ps| && ps[chain[k]].flags.sending && ps[chain[k]].sendTo == chain[k + 1]
  }

  lemma {:induction false} HopsMakeAChain(ps: seq<Proc>, a: int, n: nat) returns (chain: seq<int>)
    requires Hop(ps, a, n) >= 0
    ensures IsWaitChain(ps, chain) && chain[0] == a && chain[|chain| - 1] == Hop(ps, a, n)
    decreases n
  {
    chain := [a];
    if n > 0 {
      var rest := HopsMakeAChain(ps, ps[a].sendTo, n - 1);
      chain := [a] + rest;
      forall k | 0 <= k < |chain| - 1
        ensures 0 <= chain[k] < |ps| && ps[chain[k]].flags.sending && ps[chain[k]].sendTo == chain[k + 1]
      {
        assert k > 0 ==> chain[k] == rest[k - 1] && chain[k + 1] == rest[k];
      }
    }
  }

  lemma {:induction false} ChainIsHops(ps: seq<Proc>, chain: seq<int>)
    requires IsWaitChain(ps, chain)
    ensures Hop(ps, chain[0], |chain| - 1) == chain[|chain| - 1]
  {
    if |chain| > 1 {
      assert IsWaitChain(ps, chain[1..]);
      ChainIsHops(ps, chain[1..]);
    }
  }

  /** A process is reached just along such a chain: the one that deadlock() looks for leads from dest back to src. */
  lemma ReachedAlongAChain(ps: seq<Proc>, a: int, b: int)
    requires b >= 0
    ensures Reaches(ps, a, b) <==>
            exists chain :: IsWaitChain(ps, chain) && chain[0] == a && chain[|chain| - 1] == b
  {
    if n: nat :| Hop(ps, a, n) == b {
      var chain := HopsMakeAChain(ps, a, n);
    }
    if chain :| IsWaitChain(ps, chain) && chain[0] == a && chain[|chain| - 1] == b {
      ChainIsHops(ps, chain);
    }
  }
}
