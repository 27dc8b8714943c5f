/** The queue both sequencers implement: values leave in the order they entered, each once. */
module Fifo {

  /** `queue` is what may be taken, `out` everything taken so far. */
  datatype Fifo<T> = Fifo(queue: seq<T>, out: seq<T>)

  /** One publication may make several values available at once; values are taken one by one. */
  ghost predicate Next<T>(f: Fifo<T>, f2: Fifo<T>) {
    || (f2.out == f.out && f.queue <= f2.queue)
    || (f.queue != [] && f2 == Fifo(f.queue[1..], f.out + [f.queue[0]]))
  }
}
