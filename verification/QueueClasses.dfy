/** The two queues as the source has them: objects whose methods update a deque or a ring. */
module QueueClasses {
  import opened Conditions
  import opened BlockingQueues

  /** The part of `boost::circular_buffer` that `BoundBlockingQueue` uses. */
  class CircularBuffer<T(0)> {
    const data: array<T>
    var first: nat
    var size: nat

    ghost predicate Valid()
      reads this
    {
      && size <= data.Length
      && (data.Length > 0 ==> first < data.Length)
    }

    function Slot(i: nat): (k: nat)
      requires Valid() && i <= data.Length && data.Length > 0
      reads this
      ensures k < data.Length
    {
      if i < data.Length - first then first + i else first + i - data.Length
    }

    ghost function Contents(): (s: seq<T>)
      requires Valid()
      reads this, data
      ensures |s| == size
    {
      seq(size, i requires 0 <= i < size && Valid() reads this, data => data[Slot(i)])
    }

    constructor (capacity: nat)
      ensures Valid() && fresh(data) && data.Length == capacity && Contents() == []
    {
      data := new T[capacity];
      first, size := 0, 0;
    }

    predicate Full() reads this { size >= data.Length }

    predicate Empty() reads this { size == 0 }

    /** When the ring is full the oldest element is overwritten; a ring without capacity stays empty. */
    method PushBack(x: T)
      requires Valid()
      modifies this, data
      ensures Valid()
      ensures Contents() ==
        if data.Length == 0 then []
        else if old(Full()) then old(Contents())[1..] + [x]
        else old(Contents()) + [x]
    {
      if data.Length == 0 {
        return;
      }
      if size == data.Length {
        data[first] := x;
        first := if first + 1 == data.Length then 0 else first + 1;
      } else {
        data[Slot(size)] := x;
        size := size + 1;
      }
    }

    method PopFront() returns (x: T)
      requires Valid() && !Empty()
      modifies this
      ensures Valid() && [x] + Contents() == old(Contents())
    {
      x := data[first];
      first := if first + 1 == data.Length then 0 else first + 1;
      size := size - 1;
    }
  }

  class BoundBlockingQueue<T(0)> {
    const ring: CircularBuffer<T>
    var notEmpty: Waiters
    var notFull: Waiters
    ghost var pending: map<Tid, T>
    ghost var calls: seq<Event<T>>
    ghost var puts: seq<Event<T>>
    ghost var takes: seq<Event<T>>

    ghost predicate Valid()
      reads this, ring
    {
      ring.Valid()
    }

    ghost function State(): Queue<T>
      requires Valid()
      reads this, ring, ring.data
    {
      Queue(Capacity(ring.data.Length), ring.Contents(), notEmpty, notFull, pending, calls, puts, takes)
    }

    constructor (maxSize: nat)
      ensures Valid() && fresh(ring) && fresh(ring.data)
      ensures State() == Init(Capacity(maxSize))
    {
      ring := new CircularBuffer<T>(maxSize);
      notEmpty, notFull := NoWaiters, NoWaiters;
      pending, calls, puts, takes := map[], [], [], [];
    }

    /** One turn of the loop in `put`, on entry or after a wake-up. `ring` is never pushed to when full. */
    method PutTurn(t: Tid, x: T, wake: set<Tid>) returns (done: bool)
      requires Valid()
      requires t in notFull.woken ==> t in pending && pending[t] == x
      requires Enabled(State(), if t in notFull.woken then ResumePut(t, wake) else Put(t, x, wake))
      modifies this, ring, ring.data
      ensures Valid()
      ensures State() == Next(old(State()), if old(t in notFull.woken) then ResumePut(t, wake) else Put(t, x, wake))
      ensures done <==> |old(ring.Contents())| < ring.data.Length
      ensures ring.Contents() == old(ring.Contents()) + if done then [x] else []
      ensures notFull == Waiters(old(notFull.asleep) + (if done then {} else {t}), old(notFull.woken) - {t})
      ensures notEmpty == if done then Waiters(old(notEmpty.asleep) - wake, old(notEmpty.woken) + wake) else old(notEmpty)
      ensures puts == old(puts) + (if done then [Event(t, x)] else []) && takes == old(takes)
    {
      if t in notFull.woken {
        notFull, pending := notFull.Resume(t), pending - {t};
      } else {
        calls := calls + [Event(t, x)];
      }
      if ring.Full() {
        notFull, pending := notFull.Sleep(t), pending[t := x];
        return false;
      }
      ring.PushBack(x);
      notEmpty := notEmpty.Notify(wake);
      puts := puts + [Event(t, x)];
      return true;
    }

    /** One turn of the loop in `take`; `front` is a list of at most one value. */
    method TakeTurn(t: Tid, wake: set<Tid>) returns (front: seq<T>)
      requires Valid()
      requires Enabled(State(), if t in notEmpty.woken then ResumeTake(t, wake) else Take(t, wake))
      modifies this, ring
      ensures Valid()
      ensures State() == Next(old(State()), if old(t in notEmpty.woken) then ResumeTake(t, wake) else Take(t, wake))
      ensures front == if old(ring.Contents()) == [] then [] else old(ring.Contents())[..1]
      ensures old(ring.Contents()) == front + ring.Contents()
      ensures notEmpty == Waiters(old(notEmpty.asleep) + (if front == [] then {t} else {}), old(notEmpty.woken) - {t})
      ensures notFull == if front == [] then old(notFull) else Waiters(old(notFull.asleep) - wake, old(notFull.woken) + wake)
      ensures puts == old(puts) && takes == old(takes) + if front == [] then [] else [Event(t, front[0])]
    {
      if t in notEmpty.woken {
        notEmpty := notEmpty.Resume(t);
      }
      if ring.Empty() {
        notEmpty := notEmpty.Sleep(t);
        return [];
      }
      var x := ring.PopFront();
      assert old(ring.Contents())[1..] == ring.Contents();
      notFull := notFull.Notify(wake);
      takes := takes + [Event(t, x)];
      return [x];
    }

    /** A wake-up of thread `t` that nobody asked for. */
    method SpuriousWakeup(t: Tid)
      requires Valid()
      requires t in notEmpty.asleep || t in notFull.asleep
      modifies this`notEmpty, this`notFull
      ensures Valid() && State() == Next(old(State()), Rouse(t))
    {
      if t in notEmpty.asleep {
        notEmpty := notEmpty.Rouse(t);
      } else {
        notFull := notFull.Rouse(t);
      }
    }
  }

  class BlockingQueue<T> {
    var queue: seq<T>
    var notEmpty: Waiters
    ghost var calls: seq<Event<T>>
    ghost var puts: seq<Event<T>>
    ghost var takes: seq<Event<T>>

    ghost function State(): Queue<T>
      reads this
    {
      Queue(Unbounded, queue, notEmpty, NoWaiters, map[], calls, puts, takes)
    }

    constructor ()
      ensures State() == Init(Unbounded)
    {
      queue, notEmpty := [], NoWaiters;
      calls, puts, takes := [], [], [];
    }

    method Put(t: Tid, x: T, wake: set<Tid>)
      requires Enabled(State(), Action.Put(t, x, wake))
      modifies this
      ensures State() == Next(old(State()), Action.Put(t, x, wake))
      ensures queue == old(queue) + [x] && puts == old(puts) + [Event(t, x)] && takes == old(takes)
      ensures notEmpty == Waiters(old(notEmpty.asleep) - wake, old(notEmpty.woken) + wake)
    {
      queue := queue + [x];
      notEmpty := notEmpty.Notify(wake);
      calls, puts := calls + [Event(t, x)], puts + [Event(t, x)];
    }

    method TakeTurn(t: Tid) returns (front: seq<T>)
      requires Enabled(State(), if t in notEmpty.woken then ResumeTake(t, {}) else Take(t, {}))
      modifies this
      ensures State() == Next(old(State()), if old(t in notEmpty.woken) then ResumeTake(t, {}) else Take(t, {}))
      ensures front == if old(queue) == [] then [] else old(queue)[..1]
      ensures old(queue) == front + queue
      ensures notEmpty == Waiters(old(notEmpty.asleep) + (if front == [] then {t} else {}), old(notEmpty.woken) - {t})
      ensures puts == old(puts) && takes == old(takes) + if front == [] then [] else [Event(t, front[0])]
    {
      if t in notEmpty.woken {
        notEmpty := notEmpty.Resume(t);
      }
      if queue == [] {
        notEmpty := notEmpty.Sleep(t);
        return [];
      }
      front := [queue[0]];
      queue := queue[1..];
      takes := takes + [Event(t, front[0])];
    }

    /** A wake-up of thread `t` that nobody asked for. */
    method SpuriousWakeup(t: Tid)
      requires t in notEmpty.asleep
      modifies this`notEmpty
      ensures State() == Next(old(State()), Rouse(t))
      ensures notEmpty == Waiters(old(notEmpty.asleep) - {t}, old(notEmpty.woken) + {t})
    {
      notEmpty := notEmpty.Rouse(t);
    }
  }
}
