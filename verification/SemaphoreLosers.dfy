/**
 When the task semaphore shuts everyone out: of two equivalent tasks, neither of which is forced, both revoke themselves
 exactly when their checks cross.
 */
module SemaphoreLosers {
  import opened Semaphore

  /** A run with the states it goes through. */
  ghost predicate Trace(st: seq<State>, ms: seq<Move>, delta: nat) {
    && |st| == |ms| + 1
    && st[0] == EMPTY
    && forall n | 0 <= n < |ms| :: Can(st[n], ms[n]) && st[n + 1] == Next(st[n], ms[n], delta)
  }

  ghost function StatesFrom(s: State, ms: seq<Move>, delta: nat): (st: seq<State>)
    requires Run(s, ms, delta)
    ensures |st| == |ms| + 1 && st[0] == s && st[|ms|] == After(s, ms, delta)
    decreases |ms|
  {
    if ms == [] then [s] else [s] + StatesFrom(Next(s, ms[0], delta), ms[1..], delta)
  }

  lemma {:induction false} StatesFollow(s: State, ms: seq<Move>, delta: nat, n: nat)
    requires Run(s, ms, delta) && n < |ms|
    ensures var st := StatesFrom(s, ms, delta);
            Can(st[n], ms[n]) && st[n + 1] == Next(st[n], ms[n], delta)
    decreases |ms|
  {
    if n > 0 {
      StatesFollow(Next(s, ms[0], delta), ms[1..], delta, n - 1);
      assert ms[1..][n - 1] == ms[n];
    }
  }

  /** Every run has its trace. */
  lemma RunIsTrace(ms: seq<Move>, delta: nat) returns (st: seq<State>)
    requires Run(EMPTY, ms, delta)
    ensures Trace(st, ms, delta) && st == StatesFrom(EMPTY, ms, delta)
  {
    st := StatesFrom(EMPTY, ms, delta);
    forall n | 0 <= n < |ms|
      ensures Can(st[n], ms[n]) && st[n + 1] == Next(st[n], ms[n], delta)
    {
      StatesFollow(EMPTY, ms, delta, n);
    }
  }

  lemma Moved(st: seq<State>, ms: seq<Move>, delta: nat, n: nat)
    requires Trace(st, ms, delta) && n < |ms|
    ensures Can(st[n], ms[n]) && st[n + 1] == Next(st[n], ms[n], delta)
  {
  }

  // ---------------------------------------------------------------- what every state of a run keeps

  lemma {:induction false} TraceSafe(st: seq<State>, ms: seq<Move>, delta: nat, n: nat)
    requires Trace(st, ms, delta) && n <= |ms|
    ensures Safe(st[n])
  {
    if n > 0 {
      TraceSafe(st, ms, delta, n - 1);
      Moved(st, ms, delta, n - 1);
      StepKeepsSafe(st[n - 1], ms[n - 1], delta);
    }
  }

  /** Records keep their call and their creation time; a task that passed stays one that passed. */
  lemma {:induction false} RecordsStay(st: seq<State>, ms: seq<Move>, delta: nat, n: nat, m: nat, id: nat)
    requires Trace(st, ms, delta) && n <= m <= |ms|
    ensures id in st[n].results ==>
              && id in st[m].results && st[m].results[id].call == st[n].results[id].call
              && st[m].results[id].created == st[n].results[id].created
    ensures id in st[n].passed ==> id in st[m].passed
    decreases m
  {
    if n < m {
      RecordsStay(st, ms, delta, n, m - 1, id);
      Moved(st, ms, delta, m - 1);
    }
  }

  /** Submitted, and not checked yet. */
  ghost predicate Unchecked(s: State, x: nat) {
    && x in s.results && x in s.phase && x !in s.passed
    && (s.phase[x].Queued? || s.phase[x].Looked?)
    && (s.results[x].status.Pending? || s.results[x].status.Started?)
  }

  lemma {:induction false} NotCheckedYet(st: seq<State>, ms: seq<Move>, delta: nat, n: nat, x: nat)
    requires Trace(st, ms, delta) && n <= |ms| && forall k | 0 <= k < n :: ms[k] != Check(x)
    ensures x in st[n].results ==> st[n].results[x].call.forced || Unchecked(st[n], x)
    ensures x !in st[n].results ==> x !in st[n].phase && x !in st[n].passed
  {
    if n > 0 {
      NotCheckedYet(st, ms, delta, n - 1, x);
      Moved(st, ms, delta, n - 1);
    }
  }

  /** Turned away by its check: it is about to revoke itself, or has done so. */
  ghost predicate Out(s: State, x: nat) {
    && x in s.results && x in s.phase && x !in s.passed
    && (s.phase[x].Doomed? || (s.phase[x].Ended? && s.results[x].status.Revoked?))
  }

  lemma OutStep(s: State, m: Move, delta: nat, x: nat)
    requires Can(s, m) && Out(s, x)
    ensures Out(Next(s, m, delta), x)
    ensures s.phase[x].Doomed? && m != Revoke(x) ==> Next(s, m, delta).phase[x].Doomed?
  {
  }

  lemma {:induction false} OutStays(st: seq<State>, ms: seq<Move>, delta: nat, n: nat, m: nat, x: nat)
    requires Trace(st, ms, delta) && n <= m <= |ms| && Out(st[n], x)
    ensures Out(st[m], x)
    ensures st[n].phase[x].Doomed? && (forall k | n <= k < m :: ms[k] != Revoke(x)) ==> st[m].phase[x].Doomed?
    decreases m
  {
    if n < m {
      OutStays(st, ms, delta, n, m - 1, x);
      Moved(st, ms, delta, m - 1);
      OutStep(st[m - 1], ms[m - 1], delta, x);
    }
  }

  /** A check lets the task through or turns it away. */
  lemma CheckDecides(st: seq<State>, ms: seq<Move>, delta: nat, k: nat, n: nat, x: nat)
    requires Trace(st, ms, delta) && k < n <= |ms| && ms[k] == Check(x)
    ensures x in st[n].passed || Out(st[n], x)
  {
    Moved(st, ms, delta, k);
    if x in st[k + 1].passed {
      RecordsStay(st, ms, delta, k + 1, n, x);
    } else {
      OutStays(st, ms, delta, k + 1, n, x);
    }
  }

  lemma TurnedAwayNow(s: State, m: Move, delta: nat, x: nat)
    requires Can(s, m) && Out(Next(s, m, delta), x) && !Out(s, x)
    requires x in s.passed ==> x in Next(s, m, delta).passed
    ensures m == Check(x) && x in s.results && x in s.phase && s.phase[x].Looked?
    ensures RecentlyRun(s.results, x, s.phase[x].threshold)
  {
  }

  /** Only its own first check turns a task away that never passed. */
  lemma {:induction false} TurnedAwayBy(st: seq<State>, ms: seq<Move>, delta: nat, n: nat, x: nat) returns (i: nat)
    requires Trace(st, ms, delta) && n <= |ms| && Out(st[n], x)
    ensures i < n && ms[i] == Check(x) && forall k | 0 <= k < i :: ms[k] != Check(x)
    ensures x in st[i].results && x in st[i].phase && st[i].phase[x].Looked?
    ensures RecentlyRun(st[i].results, x, st[i].phase[x].threshold)
  {
    Moved(st, ms, delta, n - 1);
    RecordsStay(st, ms, delta, n - 1, n, x);
    if Out(st[n - 1], x) {
      i := TurnedAwayBy(st, ms, delta, n - 1, x);
    } else {
      i := n - 1;
      TurnedAwayNow(st[i], ms[i], delta, x);
      forall k | 0 <= k < i
        ensures ms[k] != Check(x)
      {
        if ms[k] == Check(x) {
          CheckDecides(st, ms, delta, k, n - 1, x);
        }
      }
    }
  }

  lemma RevokedNow(s: State, m: Move, delta: nat, x: nat)
    requires Can(s, m)
    requires x in s.results && s.results[x].status.Revoked? ==> x in s.phase && s.phase[x].Ended?
    ensures var s' := Next(s, m, delta);
            && (x in s'.results && s'.results[x].status.Revoked?
                <==> (x in s.results && s.results[x].status.Revoked?) || m == Revoke(x))
            && (x in s'.results && s'.results[x].status.Revoked? ==> x in s'.phase && s'.phase[x].Ended?)
  {
  }

  /** A record is revoked exactly when its task has revoked itself. */
  lemma {:induction false} RevokedIffMoved(st: seq<State>, ms: seq<Move>, delta: nat, n: nat, x: nat)
    requires Trace(st, ms, delta) && n <= |ms|
    ensures x in st[n].results && st[n].results[x].status.Revoked? <==> exists k | 0 <= k < n :: ms[k] == Revoke(x)
    ensures (exists k | 0 <= k < n :: ms[k] == Revoke(x)) ==> x in st[n].phase && st[n].phase[x].Ended?
  {
    if n > 0 {
      RevokedIffMoved(st, ms, delta, n - 1, x);
      Moved(st, ms, delta, n - 1);
      RevokedNow(st[n - 1], ms[n - 1], delta, x);
      assert (exists k | 0 <= k < n :: ms[k] == Revoke(x))
        <==> (exists k | 0 <= k < n - 1 :: ms[k] == Revoke(x)) || ms[n - 1] == Revoke(x);
    }
  }

  /** An unforced task that ended without passing was revoked. */
  lemma {:induction false} EndedUnpassed(st: seq<State>, ms: seq<Move>, delta: nat, n: nat, x: nat)
    requires Trace(st, ms, delta) && n <= |ms| && x in st[n].results && x in st[n].phase && x !in st[n].passed
    requires !st[n].results[x].call.forced && st[n].phase[x].Ended?
    ensures st[n].results[x].status.Revoked?
  {
    if n > 0 {
      Moved(st, ms, delta, n - 1);
      RecordsStay(st, ms, delta, n - 1, n, x);
      TraceSafe(st, ms, delta, n - 1);
      if x in st[n - 1].phase && st[n - 1].phase[x].Ended? {
        EndedUnpassed(st, ms, delta, n - 1, x);
      }
    }
  }

  // ---------------------------------------------------------------- two tasks of one call

  /** The run ends with exactly two records of one call, and it is not a forced one. */
  ghost predicate OnlyTwo(s: State, a: nat, b: nat) {
    && a != b && a in s.results && b in s.results
    && s.results[a].call == s.results[b].call && !s.results[a].call.forced
    && forall id | id in s.results && s.results[id].call == s.results[a].call :: id == a || id == b
  }

  ghost predicate BothShutOut(s: State, a: nat, b: nat) {
    && a in s.results && b in s.results && a !in s.passed && b !in s.passed
    && s.results[a].status.Revoked? && s.results[b].status.Revoked?
  }

  ghost predicate BothDoomed(s: State, a: nat, b: nat) {
    && a in s.phase && b in s.phase && a !in s.passed && b !in s.passed
    && s.phase[a].Doomed? && s.phase[b].Doomed?
  }

  /**
   Move i is the first check of x; by then y has been submitted, no longer ago than the check looks back, and y has not
   revoked itself.
   */
  ghost predicate FindsFresh(st: seq<State>, ms: seq<Move>, i: nat, x: nat, y: nat)
    requires |st| == |ms| + 1
  {
    && i < |ms| && ms[i] == Check(x) && (forall k | 0 <= k < i :: ms[k] != Check(x))
    && x in st[i].phase && st[i].phase[x].Looked?
    && y in st[i].results && st[i].results[y].created >= st[i].phase[x].threshold
    && forall k | 0 <= k < i :: ms[k] != Revoke(y)
  }

  /** Each task's check finds the other one fresh. */
  ghost predicate Crossed(st: seq<State>, ms: seq<Move>, a: nat, b: nat)
    requires |st| == |ms| + 1
  {
    exists i: nat, j: nat :: FindsFresh(st, ms, i, a, b) && FindsFresh(st, ms, j, b, a)
  }

  lemma TurnedAwayByOther(st: seq<State>, ms: seq<Move>, delta: nat, a: nat, b: nat) returns (i: nat)
    requires Trace(st, ms, delta) && OnlyTwo(st[|ms|], a, b) && Out(st[|ms|], a)
    ensures FindsFresh(st, ms, i, a, b)
  {
    i := TurnedAwayBy(st, ms, delta, |ms|, a);
    var other :| other in st[i].results && Blocks(st[i].results, a, other, st[i].phase[a].threshold);
    RecordsStay(st, ms, delta, i, |ms|, a);
    RecordsStay(st, ms, delta, i, |ms|, other);
    assert other == b;
    RevokedIffMoved(st, ms, delta, i, b);
  }

  lemma FirstOfTwo(st: seq<State>, ms: seq<Move>, delta: nat, a: nat, b: nat, i: nat, j: nat)
    requires Trace(st, ms, delta) && OnlyTwo(st[|ms|], a, b) && i < j
    requires FindsFresh(st, ms, i, a, b) && FindsFresh(st, ms, j, b, a)
    ensures Out(st[j], a) && st[j].phase[a].Doomed?
  {
    Moved(st, ms, delta, i);
    NotCheckedYet(st, ms, delta, i, a);
    NotCheckedYet(st, ms, delta, i, b);
    RecordsStay(st, ms, delta, i, |ms|, a);
    RecordsStay(st, ms, delta, i, |ms|, b);
    assert Blocks(st[i].results, a, b, st[i].phase[a].threshold);
    OutStays(st, ms, delta, i + 1, j, a);
  }

  lemma CrossedDooms(st: seq<State>, ms: seq<Move>, delta: nat, a: nat, b: nat, i: nat, j: nat)
    requires Trace(st, ms, delta) && OnlyTwo(st[|ms|], a, b) && i < j
    requires FindsFresh(st, ms, i, a, b) && FindsFresh(st, ms, j, b, a)
    ensures BothDoomed(st[j + 1], a, b)
  {
    FirstOfTwo(st, ms, delta, a, b, i, j);
    Moved(st, ms, delta, j);
    NotCheckedYet(st, ms, delta, j, b);
    TraceSafe(st, ms, delta, j);
    RecordsStay(st, ms, delta, j, |ms|, a);
    RecordsStay(st, ms, delta, j, |ms|, b);
    assert Blocks(st[j].results, b, a, st[j].phase[b].threshold);
  }

  lemma DoomedAndRevoked(st: seq<State>, ms: seq<Move>, delta: nat, a: nat, b: nat, n: nat)
    requires Trace(st, ms, delta) && n <= |ms| && BothDoomed(st[n], a, b) && Revoke(a) in ms && Revoke(b) in ms
    ensures BothShutOut(st[|ms|], a, b)
  {
    TraceSafe(st, ms, delta, n);
    OutStays(st, ms, delta, n, |ms|, a);
    OutStays(st, ms, delta, n, |ms|, b);
    RevokedIffMoved(st, ms, delta, |ms|, a);
    RevokedIffMoved(st, ms, delta, |ms|, b);
  }

  lemma ShutOutMeansCrossed(st: seq<State>, ms: seq<Move>, delta: nat, a: nat, b: nat)
    requires Trace(st, ms, delta) && OnlyTwo(st[|ms|], a, b) && BothShutOut(st[|ms|], a, b)
    ensures Revoke(a) in ms && Revoke(b) in ms && Crossed(st, ms, a, b)
  {
    TraceSafe(st, ms, delta, |ms|);
    var i := TurnedAwayByOther(st, ms, delta, a, b);
    var j := TurnedAwayByOther(st, ms, delta, b, a);
    RevokedIffMoved(st, ms, delta, |ms|, a);
    RevokedIffMoved(st, ms, delta, |ms|, b);
  }

  lemma CrossedMeansDoomed(st: seq<State>, ms: seq<Move>, delta: nat, a: nat, b: nat) returns (n: nat)
    requires Trace(st, ms, delta) && OnlyTwo(st[|ms|], a, b) && Crossed(st, ms, a, b)
    ensures n <= |ms| && BothDoomed(st[n], a, b)
  {
    var i: nat, j: nat :| FindsFresh(st, ms, i, a, b) && FindsFresh(st, ms, j, b, a);
    if i < j {
      CrossedDooms(st, ms, delta, a, b, i, j);
      n := j + 1;
    } else {
      CrossedDooms(st, ms, delta, b, a, j, i);
      n := i + 1;
    }
  }

  /**
   Over every run: two equivalent tasks, the only ones of their call, both end revoked without either having passed
   exactly when each one's check finds the other submitted, fresh and not yet revoked, and both revoke themselves;
   equivalently, when the run goes through a state in which both have been turned away.
   */
  lemma BothShutOutExactly(st: seq<State>, ms: seq<Move>, delta: nat, a: nat, b: nat)
    requires Trace(st, ms, delta) && OnlyTwo(st[|ms|], a, b)
    ensures BothShutOut(st[|ms|], a, b) <==> Revoke(a) in ms && Revoke(b) in ms && Crossed(st, ms, a, b)
    ensures BothShutOut(st[|ms|], a, b)
            <==> Revoke(a) in ms && Revoke(b) in ms && exists n | 0 <= n <= |ms| :: BothDoomed(st[n], a, b)
  {
    if BothShutOut(st[|ms|], a, b) {
      ShutOutMeansCrossed(st, ms, delta, a, b);
    }
    if Crossed(st, ms, a, b) {
      var n := CrossedMeansDoomed(st, ms, delta, a, b);
    }
    if Revoke(a) in ms && Revoke(b) in ms {
      if n :| 0 <= n <= |ms| && BothDoomed(st[n], a, b) {
        DoomedAndRevoked(st, ms, delta, a, b, n);
      }
    }
  }

  /** The same for a run given by its moves alone. */
  lemma BothShutOutInEveryRun(ms: seq<Move>, delta: nat, a: nat, b: nat)
    requires Run(EMPTY, ms, delta) && OnlyTwo(After(EMPTY, ms, delta), a, b)
    ensures BothShutOut(After(EMPTY, ms, delta), a, b)
            <==> Revoke(a) in ms && Revoke(b) in ms && Crossed(StatesFrom(EMPTY, ms, delta), ms, a, b)
  {
    var st := RunIsTrace(ms, delta);
    BothShutOutExactly(st, ms, delta, a, b);
  }

  /** No check of y comes between a check that turns x away and x revoking itself. */
  ghost predicate Unseparated(st: seq<State>, ms: seq<Move>, x: nat, y: nat)
    requires |st| == |ms| + 1
  {
    forall i, j | 0 <= i < j < |ms| && ms[i] == Check(x) && ms[j] == Check(y) && Out(st[i + 1], x) ::
      exists k | i < k < j :: ms[k] == Revoke(x)
  }

  lemma NotCrossed(st: seq<State>, ms: seq<Move>, delta: nat, a: nat, b: nat, i: nat, j: nat)
    requires Trace(st, ms, delta) && OnlyTwo(st[|ms|], a, b) && i < j && Unseparated(st, ms, a, b)
    ensures !(FindsFresh(st, ms, i, a, b) && FindsFresh(st, ms, j, b, a))
  {
    if FindsFresh(st, ms, i, a, b) && FindsFresh(st, ms, j, b, a) {
      FirstOfTwo(st, ms, delta, a, b, i, j);
      Moved(st, ms, delta, i);
      RecordsStay(st, ms, delta, i + 1, j, a);
      CheckDecides(st, ms, delta, i, i + 1, a);
    }
  }

  /** So if looking and revoking are never separated by the other task's check, one of the two gets through. */
  lemma OneGetsThrough(st: seq<State>, ms: seq<Move>, delta: nat, a: nat, b: nat)
    requires Trace(st, ms, delta) && OnlyTwo(st[|ms|], a, b)
    requires Unseparated(st, ms, a, b) && Unseparated(st, ms, b, a)
    requires a in st[|ms|].phase && st[|ms|].phase[a].Ended? && b in st[|ms|].phase && st[|ms|].phase[b].Ended?
    ensures a in st[|ms|].passed || b in st[|ms|].passed
  {
    if a !in st[|ms|].passed && b !in st[|ms|].passed {
      EndedUnpassed(st, ms, delta, |ms|, a);
      EndedUnpassed(st, ms, delta, |ms|, b);
      ShutOutMeansCrossed(st, ms, delta, a, b);
      var i: nat, j: nat :| FindsFresh(st, ms, i, a, b) && FindsFresh(st, ms, j, b, a);
      if i < j {
        NotCrossed(st, ms, delta, a, b, i, j);
      } else {
        NotCrossed(st, ms, delta, b, a, j, i);
      }
    }
  }
}
