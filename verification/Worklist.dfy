/** The retry loop's candidate endpoints: a queue with single-visit dedup and
    front insertion for leader-hint redirects. */
module Worklists {
  import opened Wrappers
  import opened ClientTypes

  /** Position of the first queued endpoint that was not visited yet. */
  function FirstUnvisited(queue: seq<Endpoint>, visited: set<Endpoint>): (k: nat)
    ensures k <= |queue|
    ensures k < |queue| ==> queue[k] !in visited
    ensures forall i :: 0 <= i < k ==> queue[i] in visited
  {
    if queue == [] || queue[0] !in visited then 0 else 1 + FirstUnvisited(queue[1..], visited)
  }

  /** The next endpoint to dial: the first one queued that was not visited yet. */
  function Pick(queue: seq<Endpoint>, visited: set<Endpoint>): Option<Endpoint> {
    var k := FirstUnvisited(queue, visited);
    if k < |queue| then Some(queue[k]) else None
  }

  /** What stays queued once that endpoint, and everything skipped before it, is gone. */
  function Rest(queue: seq<Endpoint>, visited: set<Endpoint>): seq<Endpoint> {
    var k := FirstUnvisited(queue, visited);
    if k < |queue| then queue[k + 1..] else []
  }

  /** `e` stands at position `k`, behind visited endpoints only, and `rest` is all that follows. */
  predicate FoundAt(queue: seq<Endpoint>, visited: set<Endpoint>, e: Endpoint, k: int, rest: seq<Endpoint>) {
    && 0 <= k < |queue| && queue[k] == e && rest == queue[k + 1..]
    && forall i :: 0 <= i < k ==> queue[i] in visited
  }

  class Worklist {
    var queue: seq<Endpoint>
    var visited: set<Endpoint>

    constructor (endpoints: seq<Endpoint>)
      ensures queue == endpoints && visited == {}
    {
      queue, visited := endpoints, {};
    }

    method Next() returns (e: Option<Endpoint>)
      modifies this
      ensures e == Pick(old(queue), old(visited)) && queue == Rest(old(queue), old(visited))
      ensures visited == if e.Some? then old(visited) + {e.value} else old(visited)
      ensures e.Some? ==> e.value !in old(visited) && exists k :: FoundAt(old(queue), old(visited), e.value, k, queue)
      ensures e.None? ==> forall x :: x in old(queue) ==> x in visited
    {
      ghost var popped := 0;
      while queue != []
        invariant popped <= |old(queue)| && queue == old(queue)[popped..]
        invariant visited == old(visited)
        invariant forall i :: 0 <= i < popped ==> old(queue)[i] in visited
        decreases |queue|
      {
        var endpoint := queue[0];
        queue := queue[1..];
        if endpoint !in visited {
          assert FoundAt(old(queue), visited, endpoint, popped, queue);
          visited := visited + {endpoint};
          return Some(endpoint);
        }
        popped := popped + 1;
      }
      return None;
    }

    /** The hinted endpoint is the very next one dialed, unless it was tried already. */
    method RedirectTo(endpoint: Endpoint)
      modifies this`queue
      ensures queue == [endpoint] + old(queue)
    {
      queue := [endpoint] + queue;
    }
  }
}
