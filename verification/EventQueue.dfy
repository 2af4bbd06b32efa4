/** The discrete-event kernel the controller runs on: a clock and a set of pending events.
    ns-3 orders events by time and, at equal times, by the uid handed out when they were scheduled. */
module EventQueue {
  import opened Basics

  /** Which handler of the AGV an event runs. */
  datatype Kind =
    | SendConnection
    | SendFactsheetRequest
    | SendFactsheet
    | SendOrder
    | SendState
    | SendVisualization
    | StartTeleoperation
    | StopTeleoperation
    | SendTeleoperationState
    | SendControl
    | RequestCapabilities
    | SendCapabilities

  datatype Event = Event(time: nat, kind: Kind)

  /** An event handle as stored by the AGV; `None` is a default-constructed `EventId`. */
  type Handle = Option<nat>

  datatype Queue = Queue(now: nat, nextUid: nat, pending: map<nat, Event>)

  const EMPTY := Queue(0, 0, map[])

  predicate WellFormed(q: Queue) {
    forall u <- q.pending :: u < q.nextUid && q.now <= q.pending[u].time
  }

  /** The uids of the live events of one kind. */
  function Live(q: Queue, kind: Kind): set<nat> {
    set u | u in q.pending && q.pending[u].kind == kind
  }

  /** The clock has not moved, and an event of `q` that is still pending in `r` is the same event. */
  predicate Extends(q: Queue, r: Queue) {
    && q.now == r.now && q.nextUid <= r.nextUid
    && forall v <- r.pending | v < q.nextUid :: v in q.pending && r.pending[v] == q.pending[v]
  }

  /** A new event `delay` milliseconds from now. Its handle is `Some(q.nextUid)`. */
  function Schedule(q: Queue, delay: nat, kind: Kind): (r: Queue)
    ensures WellFormed(q) ==> WellFormed(r)
    ensures Extends(q, r)
    ensures WellFormed(q) ==> forall k :: Live(r, k) == if k == kind then Live(q, k) + {q.nextUid} else Live(q, k)
  {
    var r := Queue(q.now, q.nextUid + 1, q.pending[q.nextUid := Event(q.now + delay, kind)]);
    assert WellFormed(q) ==> forall k ::
        Live(r, k) == if k == kind then Live(q, k) + {q.nextUid} else Live(q, k);
    r
  }

  /** Cancelling a handle that is unset, or whose event already ran or was cancelled, does nothing. */
  function Cancel(q: Queue, h: Handle): (r: Queue)
    ensures WellFormed(q) ==> WellFormed(r)
    ensures Extends(q, r)
    ensures forall k :: Live(r, k) == if h.Some? then Live(q, k) - {h.value} else Live(q, k)
  {
    if h.Some? then q.(pending := q.pending - {h.value}) else q
  }

  /** The event that runs next: earliest time, then smallest uid. */
  predicate IsNext(q: Queue, u: nat) {
    && u in q.pending
    && forall v <- q.pending :: Earlier(q, u, v)
  }

  predicate Earlier(q: Queue, u: nat, v: nat)
    requires u in q.pending && v in q.pending
  {
    q.pending[u].time < q.pending[v].time || (q.pending[u].time == q.pending[v].time && u <= v)
  }

  /** Takes the next event off the queue and advances the clock to its time. */
  function Take(q: Queue, u: nat): (r: Queue)
    requires IsNext(q, u)
    ensures WellFormed(q) ==> WellFormed(r) && q.now <= r.now
    ensures forall k :: Live(r, k) == Live(q, k) - {u}
  {
    Queue(q.pending[u].time, q.nextUid, q.pending - {u})
  }

  /** Ordering by (time, uid) is total: a queue that is not empty has exactly one next event. */
  lemma NextExists(q: Queue) returns (u: nat)
    requires q.pending != map[]
    ensures IsNext(q, u)
    ensures forall v | IsNext(q, v) :: v == u
  {
    u := Least(q, q.pending.Keys);
  }

  lemma Least(q: Queue, s: set<nat>) returns (u: nat)
    requires s != {} && s <= q.pending.Keys
    ensures u in s && forall v <- s :: Earlier(q, u, v)
    decreases |s|
  {
    u :| u in s;
    if s != {u} {
      assert s - {u} != {};
      var w := Least(q, s - {u});
      var first := if Earlier(q, u, w) then u else w;
      forall v <- s ensures Earlier(q, first, v) {
        assert v == u || v in s - {u};
      }
      u := first;
    }
  }
}
