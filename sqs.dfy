/** The analysis-queue stub of src/queues/sqs.ts: a module-level list of
    job ids. Whether an SQS queue URL is configured is a parameter. */
module Sqs {

  /** The reply and the new queue of one `enqueueAnalysis` call. */
  datatype Enqueued = Enqueued(accepted: bool, queue: seq<string>)

  /** What `enqueueAnalysis` does to `queue`: refuse without a configured
      queue, otherwise append the id. */
  function Enqueue(queue: seq<string>, id: string, configured: bool): (r: Enqueued)
    ensures r.accepted == configured
    ensures !configured ==> r.queue == queue
    ensures configured ==> |r.queue| == |queue| + 1 && r.queue[..|queue|] == queue && r.queue[|queue|] == id
  {
    if !configured then Enqueued(false, queue) else Enqueued(true, queue + [id])
  }

  /** Enqueuing a list of ids one after the other on a configured queue
      leaves them after the earlier entries, in call order. */
  function EnqueueAll(queue: seq<string>, ids: seq<string>, configured: bool): seq<string>
    decreases |ids|
  {
    if ids == [] then queue
    else EnqueueAll(Enqueue(queue, ids[0], configured).queue, ids[1..], configured)
  }

  lemma {:induction false} EnqueueAllAppends(queue: seq<string>, ids: seq<string>, configured: bool)
    ensures EnqueueAll(queue, ids, configured) == if configured then queue + ids else queue
    decreases |ids|
  {
    if ids != [] {
      EnqueueAllAppends(Enqueue(queue, ids[0], configured).queue, ids[1..], configured);
      if configured {
        assert queue + [ids[0]] + ids[1..] == queue + ids;
      }
    }
  }

  /** tests/sqs.test.ts: without configuration the call is refused and a
      fresh queue stays empty. */
  lemma UnconfiguredStaysEmpty(id: string)
    ensures Enqueue([], id, false) == Enqueued(false, [])
  {
  }

  class AnalysisQueue {
    var queue: seq<string>

    /** `const queue: string[] = []`. */
    constructor()
      ensures queue == []
    {
      queue := [];
    }

    /** `enqueueAnalysis`. */
    method EnqueueAnalysis(id: string, configured: bool) returns (ok: bool)
      modifies this
      ensures Enqueued(ok, queue) == Enqueue(old(queue), id, configured)
    {
      if !configured {
        return false;
      }
      queue := queue + [id];
      return true;
    }

    /** `_peekQueue`: a copy of the queue; the queue itself is untouched. */
    method PeekQueue() returns (snapshot: seq<string>)
      ensures snapshot == queue
    {
      snapshot := queue;
    }
  }
}
