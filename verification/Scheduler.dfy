/** The scheduler queue and the choice of the next request (src/scheduler.cpp). */
module Scheduler {
  import opened Requests

  ghost predicate IsFirstShortest(queue: seq<Admitted>, i: nat) {
    && i < |queue|
    && (forall j :: 0 <= j < |queue| ==> queue[i].total <= queue[j].total)
    && (forall j :: 0 <= j < i ==> queue[i].total < queue[j].total)
  }

  // The position of the first request with the fewest total bytes.
  function FirstShortest(queue: seq<Admitted>): (i: nat)
    requires queue != []
    ensures IsFirstShortest(queue, i)
  {
    var last := |queue| - 1;
    if last == 0 then 0
    else
      var i := FirstShortest(queue[..last]);
      if queue[last].total < queue[i].total then last else i
  }

  // The position the policy picks; every policy but SJF takes the front.
  function Selected(policy: Policy, queue: seq<Admitted>): (i: nat)
    requires queue != []
    ensures i < |queue|
  {
    if policy.Sjf? then FirstShortest(queue) else 0
  }

  function Without<T>(s: seq<T>, i: nat): (r: seq<T>)
    requires i < |s|
    ensures |r| == |s| - 1
  {
    s[..i] + s[i + 1..]
  }

  class SchedulerQueue {
    var queue: seq<Admitted>

    constructor ()
      ensures queue == []
    {
      queue := [];
    }

    // Requeued and new requests alike join at the tail.
    method EnqueueAdmittedRequest(request: Admitted)
      modifies this
      ensures queue == old(queue) + [request]
    {
      queue := queue + [request];
    }

    method SelectNextRequestToProcess(policy: Policy) returns (request: Admitted)
      requires queue != []
      modifies this
      ensures request == old(queue)[Selected(policy, old(queue))]
      ensures queue == Without(old(queue), Selected(policy, old(queue)))
      ensures policy.Sjf? ==> exists i: nat :: IsFirstShortest(old(queue), i) && request == old(queue)[i]
    {
      if policy != Sjf {
        request := queue[0];
        queue := queue[1..];
      } else {
        var shortest := 0;
        var it := 0;
        while it < |queue|
          invariant 0 <= it <= |queue| && shortest < |queue|
          invariant it == 0 ==> shortest == 0
          invariant it > 0 ==> shortest == FirstShortest(queue[..it])
        {
          assert queue[..it + 1][..it] == queue[..it];
          if queue[it].total < queue[shortest].total {
            shortest := it;
          }
          it := it + 1;
        }
        assert queue[..it] == queue;
        request := queue[shortest];
        queue := queue[..shortest] + queue[shortest + 1..];
      }
    }
  }
}
