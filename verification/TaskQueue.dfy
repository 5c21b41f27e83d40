// A loop's functor queue as its users see it: the rest of the batch being run
// and what has been posted since. EventLoopTheorems shows that the
// interleaved steps of src/EventLoop.cc do nothing else to it.
module TaskQueue {

  datatype Queue<F> = Queue(batch: seq<F>, pending: seq<F>) {
    function All(): seq<F> {
      batch + pending
    }
  }

  function Push<F>(q: Queue<F>, f: F): Queue<F> {
    q.(pending := q.pending + [f])
  }

  // The swap of doPendingFunctors.
  function Swap<F>(q: Queue<F>): Queue<F>
    requires q.batch == []
  {
    Queue(q.pending, [])
  }

  function Pop<F>(q: Queue<F>): Queue<F>
    requires q.batch != []
  {
    q.(batch := q.batch[1..])
  }
}
