/**
 The task semaphore: a task that is not forced first looks for an equivalent recent task in the result table, and either
 runs or revokes itself. Looking, revoking and finishing are separate steps that interleave with those of other tasks.
 */
module Semaphore {

  /** What makes two tasks equivalent. The force flag is one of the keyword arguments. */
  datatype Call = Call(name: string, args: string, kwargs: string, forced: bool)

  datatype Status = Pending | Started | Retry | Success | Failure | Revoked

  datatype Result = Result(call: Call, created: int, status: Status)

  type Results = map<nat, Result>

  predicate Blocks(results: Results, id: nat, other: nat, threshold: int) {
    && id in results && other in results && other != id
    && results[other].call == results[id].call
    && results[other].created >= threshold
    && !results[other].status.Failure? && !results[other].status.Revoked?
  }

  /**
   Another task with the same name and arguments was created since the threshold and has not failed or been revoked.
   */
  predicate RecentlyRun(results: Results, id: nat, threshold: int) {
    exists other | other in results :: Blocks(results, id, other, threshold)
  }

  /** The two tasks were given the same name and arguments, force flag included. */
  ghost predicate Equivalent(r: Result, t: Result) {
    r.call.name == t.call.name && r.call.args == t.call.args && r.call.kwargs == t.call.kwargs
    && r.call.forced == t.call.forced
  }

  /** An equivalent task stands in the way while it waits, runs, is to be retried or has succeeded. */
  ghost predicate InTheWay(results: Results, id: nat, other: nat, threshold: int) {
    && id in results && other in results && other != id && Equivalent(results[other], results[id])
    && threshold <= results[other].created
    && results[other].status in {Pending, Started, Retry, Success}
  }

  lemma StatusesAre(status: Status)
    ensures status in {Pending, Started, Retry, Success} <==> status !in {Failure, Revoked}
  {
    match status
    case Pending | Started | Retry | Success | Failure | Revoked =>
  }

  lemma RecentlyRunExactly(results: Results, id: nat, threshold: int)
    ensures RecentlyRun(results, id, threshold) <==> exists other :: InTheWay(results, id, other, threshold)
  {
    forall other
      ensures Blocks(results, id, other, threshold) <==> InTheWay(results, id, other, threshold)
    {
    }
  }

  class ResultTable {
    var results: Results

    constructor ()
      ensures results == map[]
    {
      results := map[];
    }

    method TaskRecentlyRun(id: nat, threshold: int) returns (found: bool)
      requires id in results
      ensures found == RecentlyRun(results, id, threshold)
      ensures found <==> exists other :: InTheWay(results, id, other, threshold)
    {
      RecentlyRunExactly(results, id, threshold);
      var rest := results.Keys;
      while rest != {}
        invariant rest <= results.Keys
        invariant forall other | other in results.Keys - rest :: !Blocks(results, id, other, threshold)
        decreases rest
      {
        var other :| other in rest;
        if other != id && results[other].call == results[id].call && results[other].created >= threshold
           && results[other].status != Failure && results[other].status != Revoked {
          return true;
        }
        rest := rest - {other};
      }
      found := false;
    }

    /** The wrapper when nothing interleaves with it: the task runs, or its record is revoked. */
    method Guard(id: nat, now: int, delta: nat) returns (runs: bool)
      requires id in results
      modifies this
      ensures runs <==> old(results)[id].call.forced || !RecentlyRun(old(results), id, now - delta)
      ensures results == if runs then old(results) else old(results)[id := old(results)[id].(status := Revoked)]
    {
      runs := true;
      if !results[id].call.forced {
        var recent := TaskRecentlyRun(id, now - delta);
        if recent {
          results := results[id := results[id].(status := Revoked)];
          runs := false;
        }
      }
    }
  }

  // ---------------------------------------------------------------- the protocol

  /** Where a task is in the wrapper. */
  datatype Phase = Queued | Looked(threshold: int) | Doomed | Inside | Ended

  /** `passed` holds, for every task that got past its last check, the threshold that check used. */
  datatype State = State(now: int, results: Results, phase: map<nat, Phase>, passed: map<nat, int>)

  datatype Move =
    | Tick(later: int)
    | Submit(id: nat, call: Call)
    | Enter(id: nat)
    | Check(id: nat)
    | Revoke(id: nat)
    | Finish(id: nat, status: Status)

  function WithStatus(s: State, id: nat, status: Status): Results
    requires id in s.results
  {
    s.results[id := s.results[id].(status := status)]
  }

  ghost predicate Can(s: State, m: Move) {
    match m
    case Tick(later) => later >= s.now
    case Submit(id, _) => id !in s.results && id !in s.phase
    case Enter(id) => id in s.results && id in s.phase && s.phase[id].Queued?
    case Check(id) => id in s.results && id in s.phase && s.phase[id].Looked?
    case Revoke(id) => id in s.results && id in s.phase && s.phase[id].Doomed?
    case Finish(id, status) =>
      id in s.results && id in s.phase && s.phase[id].Inside? && (status.Success? || status.Failure? || status.Retry?)
  }

  /** A forced task skips the check. A task that asks to be retried goes through the wrapper again. */
  function Next(s: State, m: Move, delta: nat): State
    requires Can(s, m)
  {
    match m
    case Tick(later) => s.(now := later)
    case Submit(id, call) =>
      s.(results := s.results[id := Result(call, s.now, Pending)], phase := s.phase[id := Queued])
    case Enter(id) =>
      s.(results := WithStatus(s, id, Started),
         phase := s.phase[id := if s.results[id].call.forced then Inside else Looked(s.now - delta)])
    case Check(id) =>
      if RecentlyRun(s.results, id, s.phase[id].threshold) then s.(phase := s.phase[id := Doomed])
      else s.(phase := s.phase[id := Inside], passed := s.passed[id := s.phase[id].threshold])
    case Revoke(id) => s.(results := WithStatus(s, id, Revoked), phase := s.phase[id := Ended])
    case Finish(id, status) =>
      s.(results := WithStatus(s, id, status), phase := s.phase[id := if status.Retry? then Queued else Ended])
  }

  /**
   A task that passed its check and has not failed or been revoked since: it is running, waiting to retry, or done.
   */
  ghost predicate Holds(s: State, id: nat) {
    && id in s.passed && id in s.results && id in s.phase
    && !s.results[id].status.Failure? && !s.results[id].status.Revoked?
  }

  /** The bookkeeping part of the invariant. */
  ghost predicate Kept(s: State) {
    && (forall id | id in s.phase && s.phase[id].Looked? :: id in s.results && !s.results[id].call.forced)
    && s.phase.Keys == s.results.Keys && s.passed.Keys <= s.results.Keys
    && (forall id | id in s.results && (s.results[id].status.Failure? || s.results[id].status.Revoked?) ::
          s.phase[id].Ended?)
  }

  /**
   Of two equivalent tasks that hold the semaphore, one was created before the threshold of the other's check; and a
   task inside, unless forced, did pass.
   */
  ghost predicate Safe(s: State) {
    && (forall a, b | Holds(s, a) && Holds(s, b) && a != b && s.results[a].call == s.results[b].call ::
          s.results[a].created < s.passed[b] || s.results[b].created < s.passed[a])
    && (forall id | id in s.phase && s.phase[id].Inside? ::
          id in s.results && (s.results[id].call.forced || Holds(s, id)))
    && Kept(s)
  }

  lemma CheckKeepsSafe(s: State, id: nat, delta: nat)
    requires Safe(s) && Can(s, Check(id)) && !RecentlyRun(s.results, id, s.phase[id].threshold)
    ensures Safe(Next(s, Check(id), delta))
  {
    var s' := Next(s, Check(id), delta);
    forall a, b | Holds(s', a) && Holds(s', b) && a != b && s'.results[a].call == s'.results[b].call
      ensures s'.results[a].created < s'.passed[b] || s'.results[b].created < s'.passed[a]
    {
      if b == id {
        assert !Blocks(s.results, id, a, s.phase[id].threshold);
      } else if a == id {
        assert !Blocks(s.results, id, b, s.phase[id].threshold);
      } else {
        assert Holds(s, a) && Holds(s, b);
      }
    }
    forall x | x in s'.phase && s'.phase[x].Inside?
      ensures s'.results[x].call.forced || Holds(s', x)
    {
      if x != id {
        assert s.results[x].call.forced || Holds(s, x);
      }
    }
  }

  /** Only a check that passes makes a task hold the semaphore. */
  lemma HeldBefore(s: State, m: Move, delta: nat, id: nat)
    requires Safe(s) && Can(s, m)
    requires !(m.Check? && !RecentlyRun(s.results, m.id, s.phase[m.id].threshold))
    ensures var s' := Next(s, m, delta);
            Holds(s', id) ==>
              && Holds(s, id) && s'.results[id].call == s.results[id].call
              && s'.results[id].created == s.results[id].created && s'.passed[id] == s.passed[id]
  {
    if Holds(Next(s, m, delta), id) {
      assert id in s.results;
      assert !m.Tick? && m.id == id ==> !s.phase[id].Ended?;
    }
  }

  lemma InsideStaysHolding(s: State, m: Move, delta: nat, id: nat)
    requires Safe(s) && Can(s, m)
    requires !(m.Check? && !RecentlyRun(s.results, m.id, s.phase[m.id].threshold))
    ensures var s' := Next(s, m, delta);
            id in s'.phase && s'.phase[id].Inside? ==>
              id in s'.results && (s'.results[id].call.forced || Holds(s', id))
  {
    assert id in s.phase && s.phase[id].Inside? ==> s.results[id].call.forced || Holds(s, id);
  }

  lemma StaysKept(s: State, m: Move, delta: nat)
    requires Kept(s) && Can(s, m)
    ensures Kept(Next(s, m, delta))
  {
  }

  lemma StepKeepsSafe(s: State, m: Move, delta: nat)
    requires Safe(s) && Can(s, m)
    ensures Safe(Next(s, m, delta))
  {
    StaysKept(s, m, delta);
    if m.Check? && !RecentlyRun(s.results, m.id, s.phase[m.id].threshold) {
      CheckKeepsSafe(s, m.id, delta);
    } else {
      var s' := Next(s, m, delta);
      forall a, b | Holds(s', a) && Holds(s', b) && a != b && s'.results[a].call == s'.results[b].call
        ensures s'.results[a].created < s'.passed[b] || s'.results[b].created < s'.passed[a]
      {
        HeldBefore(s, m, delta, a);
        HeldBefore(s, m, delta, b);
      }
      forall id | id in s'.phase && s'.phase[id].Inside?
        ensures id in s'.results && (s'.results[id].call.forced || Holds(s', id))
      {
        InsideStaysHolding(s, m, delta, id);
      }
    }
  }

  ghost predicate Run(s: State, ms: seq<Move>, delta: nat)
    decreases |ms|
  {
    ms == [] || (Can(s, ms[0]) && Run(Next(s, ms[0], delta), ms[1..], delta))
  }

  ghost function After(s: State, ms: seq<Move>, delta: nat): State
    requires Run(s, ms, delta)
    decreases |ms|
  {
    if ms == [] then s else After(Next(s, ms[0], delta), ms[1..], delta)
  }

  const EMPTY := State(0, map[], map[], map[])

  lemma {:induction false} RunKeepsSafe(s: State, ms: seq<Move>, delta: nat)
    requires Safe(s) && Run(s, ms, delta)
    ensures Safe(After(s, ms, delta))
    decreases |ms|
  {
    if ms != [] {
      StepKeepsSafe(s, ms[0], delta);
      RunKeepsSafe(Next(s, ms[0], delta), ms[1..], delta);
    }
  }

  /**
   In every interleaving: two equivalent tasks that are not forced are never inside at once unless one of them was
   created before the other's check looked back.
   */
  lemma NeverInsideTogether(ms: seq<Move>, delta: nat, a: nat, b: nat)
    requires Run(EMPTY, ms, delta)
    requires var s := After(EMPTY, ms, delta);
             && a in s.phase && b in s.phase && a != b && s.phase[a].Inside? && s.phase[b].Inside?
             && a in s.results && b in s.results
             && s.results[a].call == s.results[b].call && !s.results[a].call.forced
    ensures var s := After(EMPTY, ms, delta);
            && a in s.passed && b in s.passed
            && (s.results[a].created < s.passed[b] || s.results[b].created < s.passed[a])
  {
    RunKeepsSafe(EMPTY, ms, delta);
  }

  /**
   A task that enters and checks without being interrupted gets in exactly when every equivalent task created in the
   last `delta` has failed or been revoked.
   */
  lemma GetsInExactly(s: State, id: nat, delta: nat)
    requires Can(s, Enter(id)) && !s.results[id].call.forced
    ensures var entered := Next(s, Enter(id), delta);
            && Can(entered, Check(id))
            && (Next(entered, Check(id), delta).phase[id].Inside?
                <==> forall other | other in s.results && other != id && Equivalent(s.results[other], s.results[id])
                                    && s.results[other].created >= s.now - delta ::
                       s.results[other].status in {Failure, Revoked})
  {
    var entered := Next(s, Enter(id), delta);
    RecentlyRunExactly(entered.results, id, s.now - delta);
    forall other
      ensures InTheWay(entered.results, id, other, s.now - delta)
              <==> && other in s.results && other != id && Equivalent(s.results[other], s.results[id])
                   && s.results[other].created >= s.now - delta && s.results[other].status !in {Failure, Revoked}
    {
      if other in s.results && other != id {
        assert entered.results[other] == s.results[other];
        StatusesAre(s.results[other].status);
      }
    }
  }

  /** A task that failed makes way for its successor; one that succeeded or is to be retried does so once it is old. */
  lemma FinishDecides(s: State, a: nat, b: nat, status: Status, delta: nat)
    requires Can(s, Finish(a, status)) && a != b && Can(Next(s, Finish(a, status), delta), Enter(b))
    requires Equivalent(s.results[a], s.results[b]) && !s.results[b].call.forced
    requires forall other | other in s.results && other !in {a, b} && Equivalent(s.results[other], s.results[b])
                            && s.results[other].created >= s.now - delta ::
               s.results[other].status in {Failure, Revoked}
    ensures var entered := Next(Next(s, Finish(a, status), delta), Enter(b), delta);
            && Can(entered, Check(b))
            && (Next(entered, Check(b), delta).phase[b].Inside?
                <==> status.Failure? || s.results[a].created < s.now - delta)
  {
    var finished := Next(s, Finish(a, status), delta);
    GetsInExactly(finished, b, delta);
    forall other | other in finished.results && other != a && other != b
      ensures finished.results[other] == s.results[other]
    {
    }
    assert finished.results[a].created == s.results[a].created && finished.results[a].status == status;
  }

  /** No move of the task is possible any more. */
  ghost predicate Over(s: State, id: nat) {
    !Can(s, Enter(id)) && !Can(s, Check(id)) && !Can(s, Revoke(id)) && forall status :: !Can(s, Finish(id, status))
  }

  /**
   The life of a task: submitted, it may enter; forced, it is then inside and may finish, otherwise it must check, and
   after that may either finish or revoke itself. One to be retried may enter again; any other end is final.
   */
  lemma Lifecycle(s: State, id: nat, call: Call, status: Status, delta: nat)
    ensures Can(s, Submit(id, call)) ==>
              var s' := Next(s, Submit(id, call), delta);
              && Can(s', Enter(id)) && s'.results[id] == Result(call, s.now, Pending)
    ensures Can(s, Enter(id)) ==>
              var s' := Next(s, Enter(id), delta);
              && (Can(s', Finish(id, Success)) <==> s.results[id].call.forced)
              && (Can(s', Check(id)) <==> !s.results[id].call.forced)
    ensures Can(s, Check(id)) ==>
              var s' := Next(s, Check(id), delta);
              && s'.results == s.results && !Can(s', Check(id))
              && Can(s', Finish(id, Success)) != Can(s', Revoke(id))
    ensures Can(s, Revoke(id)) ==>
              var s' := Next(s, Revoke(id), delta);
              && Over(s', id) && s'.results[id].status.Revoked?
    ensures Can(s, Finish(id, status)) ==>
              var s' := Next(s, Finish(id, status), delta);
              && s'.results[id].status == status
              && (status.Retry? ==> Can(s', Enter(id))) && (!status.Retry? ==> Over(s', id))
  {
  }

  /** Whatever moves, the records of the other tasks stay as they are, and calls and creation times never change. */
  lemma OthersStay(s: State, m: Move, delta: nat, other: nat)
    requires Can(s, m) && other in s.results && (m.Tick? || m.id != other)
    ensures var s' := Next(s, m, delta);
            && other in s'.results && s'.results[other] == s.results[other]
            && (other in s.phase <==> other in s'.phase) && (other in s.phase ==> s'.phase[other] == s.phase[other])
  {
  }

  /** A check looks back from no later than now, in every reachable state. */
  ghost predicate LooksBack(s: State, delta: nat) {
    forall id | id in s.phase && s.phase[id].Looked? :: s.phase[id].threshold <= s.now - delta
  }

  lemma {:induction false} RunLooksBack(s: State, ms: seq<Move>, delta: nat)
    requires Run(s, ms, delta) && LooksBack(s, delta)
    ensures LooksBack(After(s, ms, delta), delta)
    decreases |ms|
  {
    if ms != [] {
      RunLooksBack(Next(s, ms[0], delta), ms[1..], delta);
    }
  }

  /**
   In every interleaving: when a task that is not forced passes its check, every equivalent task that passed before it
   has failed, been revoked, or was created longer than `delta` ago.
   */
  lemma PassingMeansAlone(ms: seq<Move>, delta: nat, id: nat, other: nat)
    requires Run(EMPTY, ms, delta) && Can(After(EMPTY, ms, delta), Check(id))
    requires Next(After(EMPTY, ms, delta), Check(id), delta).phase[id].Inside?
    requires var s := After(EMPTY, ms, delta);
             other in s.passed && other in s.results && other != id && s.results[other].call == s.results[id].call
    ensures var s := After(EMPTY, ms, delta);
            || s.results[other].status.Failure? || s.results[other].status.Revoked?
            || s.results[other].created < s.now - delta
  {
    var s := After(EMPTY, ms, delta);
    RunLooksBack(EMPTY, ms, delta);
    assert !Blocks(s.results, id, other, s.phase[id].threshold);
  }

  lemma FirstMove(s: State, m: Move, rest: seq<Move>, delta: nat)
    requires Can(s, m) && Run(Next(s, m, delta), rest, delta)
    ensures Run(s, [m] + rest, delta) && After(s, [m] + rest, delta) == After(Next(s, m, delta), rest, delta)
  {
    assert ([m] + rest)[1..] == rest;
  }

  /** Two fresh equivalent tasks that both check before either has ended shut each other out. */
  lemma BothCanBeRevoked(call: Call, delta: nat) returns (ms: seq<Move>)
    requires !call.forced
    ensures Run(EMPTY, ms, delta)
    ensures var s := After(EMPTY, ms, delta);
            s.results.Keys == {0, 1} && s.results[0].status.Revoked? && s.results[1].status.Revoked?
            && s.results[0].call == s.results[1].call == call && s.passed == map[]
  {
    var s1 := Next(EMPTY, Submit(0, call), delta);
    var s2 := Next(s1, Submit(1, call), delta);
    var s3 := Next(s2, Enter(0), delta);
    var s4 := Next(s3, Enter(1), delta);
    assert Blocks(s4.results, 0, 1, s4.phase[0].threshold);
    var s5 := Next(s4, Check(0), delta);
    assert Blocks(s5.results, 1, 0, s5.phase[1].threshold);
    var s6 := Next(s5, Check(1), delta);
    var s7 := Next(s6, Revoke(0), delta);
    FirstMove(s7, Revoke(1), [], delta);
    FirstMove(s6, Revoke(0), [Revoke(1)] + [], delta);
    FirstMove(s5, Check(1), [Revoke(0)] + ([Revoke(1)] + []), delta);
    FirstMove(s4, Check(0), [Check(1)] + ([Revoke(0)] + ([Revoke(1)] + [])), delta);
    var tail := [Check(0)] + ([Check(1)] + ([Revoke(0)] + ([Revoke(1)] + [])));
    FirstMove(s3, Enter(1), tail, delta);
    FirstMove(s2, Enter(0), [Enter(1)] + tail, delta);
    FirstMove(s1, Submit(1, call), [Enter(0)] + ([Enter(1)] + tail), delta);
    FirstMove(EMPTY, Submit(0, call), [Submit(1, call)] + ([Enter(0)] + ([Enter(1)] + tail)), delta);
    ms := [Submit(0, call)] + ([Submit(1, call)] + ([Enter(0)] + ([Enter(1)] + tail)));
  }
}
