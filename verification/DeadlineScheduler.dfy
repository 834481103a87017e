/** Timers of one event loop: each pending timer carries its due time and its
    place in scheduling order, so equal due times fire first-in-first-out. */
module DeadlineScheduler {

  datatype Slot = Slot(due: int, order: nat)

  datatype Queue<K(==)> = Queue(pending: map<K, Slot>, issued: nat) {

    function Schedule(k: K, due: int): Queue<K> {
      Queue(pending[k := Slot(due, issued)], issued + 1)
    }

    function Cancel(k: K): Queue<K> {
      this.(pending := pending - {k})
    }

    /** k is the timer the event loop runs next. */
    predicate IsNext(k: K) {
      && k in pending
      && forall j <- pending.Keys ::
           || pending[k].due < pending[j].due
           || (pending[k].due == pending[j].due && pending[k].order <= pending[j].order)
    }

    /** The clock cannot pass a due timer. */
    predicate MayAdvanceTo(time: int) {
      forall j <- pending.Keys :: time <= pending[j].due
    }
  }
}
