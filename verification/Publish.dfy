// _maybe_publish_worker_info (src/llm_worker/main.py): when the worker republishes itself.
module Publish {
  import opened Json

  const WORKER_INFO_REPUBLISH_SECONDS := 600.0
  const WORKER_INFO_RETRY_SECONDS := 30.0

  // One call: the clock, the stop flag, and whether a write would succeed.
  datatype Call = Call(now: real, stopping: bool, succeeds: bool) {
    // How long the outcome of an attempt holds off the next one.
    function Gap(): real {
      if succeeds then WORKER_INFO_REPUBLISH_SECONDS else WORKER_INFO_RETRY_SECONDS
    }
  }

  predicate Due(nextAt: Option<real>, call: Call) {
    !call.stopping && (nextAt.Some? ==> call.now >= nextAt.value)
  }

  // The field _worker_info_next_at after a history of calls.
  function NextAt(calls: seq<Call>): Option<real> {
    if calls == [] then None
    else
      var before, call := NextAt(calls[..|calls| - 1]), calls[|calls| - 1];
      if Due(before, call) then Some(call.now + call.Gap()) else before
  }

  predicate Attempts(calls: seq<Call>, i: nat)
    requires i < |calls|
  {
    Due(NextAt(calls[..i]), calls[i])
  }

  predicate ClockMoves(calls: seq<Call>) {
    forall i, j :: 0 <= i <= j < |calls| ==> calls[i].now <= calls[j].now
  }

  // Every earlier attempt's gap has passed.
  predicate Rested(calls: seq<Call>, i: nat, now: real)
    requires i <= |calls|
  {
    forall k: nat :: k < i && Attempts(calls, k) ==> now >= calls[k].now + calls[k].Gap()
  }

  lemma {:induction false} NextAtMeansRested(calls: seq<Call>, i: nat, now: real)
    requires ClockMoves(calls) && i <= |calls| && (forall k :: 0 <= k < i ==> calls[k].now <= now)
    ensures (NextAt(calls[..i]).Some? ==> now >= NextAt(calls[..i]).value) <==> Rested(calls, i, now)
  {
    if i > 0 {
      assert calls[..i][..i - 1] == calls[..i - 1];
      NextAtMeansRested(calls, i - 1, now);
      if Attempts(calls, i - 1) {
        NextAtMeansRested(calls, i - 1, calls[i - 1].now);
        assert Rested(calls, i - 1, calls[i - 1].now);
      }
    }
  }

  // A call attempts a write exactly when the worker is not stopping and 600 s have passed
  // since every earlier success and 30 s since every earlier failure.
  lemma PublishSchedule(calls: seq<Call>, i: nat)
    requires ClockMoves(calls) && i < |calls|
    ensures Attempts(calls, i) <==>
      && !calls[i].stopping
      && forall k: nat :: k < i && Attempts(calls, k) ==>
           calls[i].now >= calls[k].now + (if calls[k].succeeds then 600.0 else 30.0)
  {
    NextAtMeansRested(calls, i, calls[i].now);
  }

  lemma AppendedClock(calls: seq<Call>, call: Call)
    requires ClockMoves(calls) && (calls != [] ==> calls[|calls| - 1].now <= call.now)
    ensures ClockMoves(calls + [call])
    ensures forall k :: 0 <= k < |calls| ==> calls[k].now <= call.now
  {
  }

  lemma AppendedNextAt(calls: seq<Call>, call: Call)
    ensures NextAt(calls + [call]) == if Due(NextAt(calls), call) then Some(call.now + call.Gap()) else NextAt(calls)
  {
    assert (calls + [call])[..|calls|] == calls;
  }

  lemma AppendCall(calls: seq<Call>, call: Call)
    requires ClockMoves(calls) && (calls != [] ==> calls[|calls| - 1].now <= call.now)
    ensures ClockMoves(calls + [call])
    ensures NextAt(calls + [call]) == if Due(NextAt(calls), call) then Some(call.now + call.Gap()) else NextAt(calls)
    ensures Due(NextAt(calls), call) <==> !call.stopping && Rested(calls, |calls|, call.now)
  {
    AppendedClock(calls, call);
    AppendedNextAt(calls, call);
    assert calls[..|calls|] == calls;
    NextAtMeansRested(calls, |calls|, call.now);
    hide ClockMoves, NextAt, Rested;
  }

  class Publisher {
    var nextAt: Option<real>
    ghost var calls: seq<Call>

    ghost predicate Valid()
      reads this
    {
      ClockMoves(calls) && nextAt == NextAt(calls)
    }

    constructor ()
      ensures Valid() && calls == []
    {
      nextAt, calls := None, [];
    }

    method MaybePublish(now: real, stopping: bool) returns (attempted: bool)
      requires Valid() && (calls != [] ==> calls[|calls| - 1].now <= now)
      modifies this
      ensures Valid()
      ensures exists succeeds :: calls == old(calls) + [Call(now, stopping, succeeds)]
      ensures attempted <==>
        && !stopping
        && forall k: nat :: k < |old(calls)| && Attempts(old(calls), k) ==>
             now >= old(calls)[k].now + (if old(calls)[k].succeeds then 600.0 else 30.0)
    {
      hide ClockMoves, NextAt, Attempts;
      var succeeds: bool := *;  // ClickHouse takes the row, or not
      AppendCall(calls, Call(now, stopping, succeeds));
      attempted := false;
      if !stopping && (nextAt.None? || now >= nextAt.value) {
        attempted := true;
        nextAt := Some(now + if succeeds then WORKER_INFO_REPUBLISH_SECONDS else WORKER_INFO_RETRY_SECONDS);
      }
      calls := calls + [Call(now, stopping, succeeds)];
    }
  }
}
