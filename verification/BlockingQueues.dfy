/**
 `BlockingQueue` and `BoundBlockingQueue` as one monitor: the unbounded queue is the case in
 which `full` is never true, so that nobody ever sleeps on the second condition.
 One atomic step is one stretch from lock or wake-up to wait or unlock.
*/
module BlockingQueues {
  import opened Conditions

  datatype Bound = Unbounded | Capacity(size: nat)

  /** `value` put or taken by thread `t`. */
  datatype Event<T> = Event(t: Tid, value: T)

  /** `pending` holds the argument of every `put` that is blocked. `calls`, `puts` and `takes`
      are history: the calls of `put`, the completed ones, and the values handed out. */
  datatype Queue<T> = Queue(
    bound: Bound, items: seq<T>,
    takers: Waiters,             // on notEmpty_
    putters: Waiters,            // on notFull_
    pending: map<Tid, T>,
    calls: seq<Event<T>>, puts: seq<Event<T>>, takes: seq<Event<T>>)
  {
    predicate Full() { bound.Capacity? && |items| >= bound.size }

    predicate Blocked(t: Tid) { takers.Has(t) || putters.Has(t) }
  }

  /** `wake` is the set of sleepers that the step's notification, if any, wakes. */
  datatype Action<T> =
    | Put(t: Tid, x: T, wake: set<Tid>)
    | ResumePut(t: Tid, wake: set<Tid>)
    | Take(t: Tid, wake: set<Tid>)
    | ResumeTake(t: Tid, wake: set<Tid>)
    | Rouse(t: Tid)

  function Init<T>(bound: Bound): Queue<T> {
    Queue(bound, [], NoWaiters, NoWaiters, map[], [], [], [])
  }

  predicate Enabled<T>(s: Queue<T>, a: Action<T>) {
    match a
    case Put(t, _, wake) => !s.Blocked(t) && s.takers.MayWake(wake)
    case ResumePut(t, wake) => t in s.putters.woken && t in s.pending && s.takers.MayWake(wake)
    case Take(t, wake) => !s.Blocked(t) && s.putters.MayWake(wake)
    case ResumeTake(t, wake) => t in s.takers.woken && s.putters.MayWake(wake)
    case Rouse(t) => t in s.takers.asleep || t in s.putters.asleep
  }

  /** One turn of `put`'s loop by a thread that holds the mutex. */
  function PutTurn<T>(s: Queue<T>, t: Tid, x: T, wake: set<Tid>): Queue<T> {
    if s.Full() then
      s.(putters := s.putters.Sleep(t), pending := s.pending[t := x])
    else
      s.(items := s.items + [x], takers := s.takers.Notify(wake), puts := s.puts + [Event(t, x)])
  }

  /** One turn of `take`'s loop by a thread that holds the mutex. */
  function TakeTurn<T>(s: Queue<T>, t: Tid, wake: set<Tid>): Queue<T> {
    if s.items == [] then
      s.(takers := s.takers.Sleep(t))
    else
      s.(items := s.items[1..], putters := s.putters.Notify(wake),
         takes := s.takes + [Event(t, s.items[0])])
  }

  function Next<T>(s: Queue<T>, a: Action<T>): Queue<T>
    requires Enabled(s, a)
  {
    match a
    case Put(t, x, wake) =>
      PutTurn(s.(calls := s.calls + [Event(t, x)]), t, x, wake)
    case ResumePut(t, wake) =>
      PutTurn(s.(putters := s.putters.Resume(t), pending := s.pending - {t}), t, s.pending[t], wake)
    case Take(t, wake) =>
      TakeTurn(s, t, wake)
    case ResumeTake(t, wake) =>
      TakeTurn(s.(takers := s.takers.Resume(t)), t, wake)
    case Rouse(t) =>
      if t in s.takers.asleep then s.(takers := s.takers.Rouse(t))
      else s.(putters := s.putters.Rouse(t))
  }

  /** A run picks any action at each point; picking a disabled one changes nothing. */
  function Run<T>(s: Queue<T>, acts: seq<Action<T>>): Queue<T>
    decreases |acts|
  {
    if acts == [] then s
    else Run(if Enabled(s, acts[0]) then Next(s, acts[0]) else s, acts[1..])
  }

  // ---------------------------------------------------------------- invariants

  function Values<T>(es: seq<Event<T>>): (vs: seq<T>)
    ensures |vs| == |es|
    ensures forall i :: 0 <= i < |es| ==> vs[i] == es[i].value
  {
    seq(|es|, i requires 0 <= i < |es| => es[i].value)
  }

  ghost predicate WaitersOk<T>(s: Queue<T>) {
    && s.takers.Valid() && s.putters.Valid()
    && s.pending.Keys == s.putters.asleep + s.putters.woken
    && (s.bound.Unbounded? ==> s.pending == map[])
  }

  /** No lost wake-up on either condition, and never more than `capacity` items. */
  ghost predicate WakeupsOk<T>(s: Queue<T>) {
    && s.takers.Covers(|s.items|)
    && (s.bound.Capacity? ==> |s.items| <= s.bound.size && s.putters.Covers(s.bound.size - |s.items|))
  }

  /** The queue is one first-in first-out buffer between completed puts and takes. */
  ghost predicate Fifo<T>(s: Queue<T>) { Values(s.puts) == Values(s.takes) + s.items }

  ghost predicate Inv<T>(s: Queue<T>) { WaitersOk(s) && WakeupsOk(s) && Fifo(s) }

  lemma StepKeepsFifo<T>(s: Queue<T>, a: Action<T>)
    requires Fifo(s) && Enabled(s, a)
    ensures Fifo(Next(s, a))
  {
    var s' := Next(s, a);
    if |s'.items| > |s.items| {
      assert Values(s'.puts) == Values(s.puts) + [s'.puts[|s.puts|].value];
    } else if |s'.items| < |s.items| {
      assert Values(s'.takes) == Values(s.takes) + [s.items[0]];
    }
  }

  lemma StepKeepsWaiters<T>(s: Queue<T>, a: Action<T>)
    requires WaitersOk(s) && Enabled(s, a)
    ensures WaitersOk(Next(s, a))
  {
  }

  lemma StepKeepsTakersCovered<T>(s: Queue<T>, a: Action<T>)
    requires s.takers.Valid() && s.takers.Covers(|s.items|) && Enabled(s, a)
    ensures Next(s, a).takers.Covers(|Next(s, a).items|)
  {
    match a
    case Put(_, _, wake) => s.takers.NotifyCovers(|s.items|, wake);
    case ResumePut(_, wake) => s.takers.NotifyCovers(|s.items|, wake);
    case Take(_, _) =>
    case ResumeTake(t, _) => s.takers.ResumeCovers(|s.items|, t);
    case Rouse(t) => if t in s.takers.asleep { s.takers.RouseCovers(|s.items|, t); }
  }

  lemma StepKeepsPuttersCovered<T>(s: Queue<T>, a: Action<T>, size: nat)
    requires s.bound == Capacity(size) && |s.items| <= size
    requires s.putters.Valid() && s.putters.Covers(size - |s.items|) && Enabled(s, a)
    ensures var s' := Next(s, a); |s'.items| <= size && s'.putters.Covers(size - |s'.items|)
  {
    var free := size - |s.items|;
    match a
    case Put(_, _, _) =>
    case ResumePut(t, _) => s.putters.ResumeCovers(free, t);
    case Take(_, wake) => s.putters.NotifyCovers(free, wake);
    case ResumeTake(_, wake) => s.putters.NotifyCovers(free, wake);
    case Rouse(t) => if t !in s.takers.asleep { s.putters.RouseCovers(free, t); }
  }

  lemma StepKeepsInv<T>(s: Queue<T>, a: Action<T>)
    requires Inv(s) && Enabled(s, a)
    ensures Inv(Next(s, a))
  {
    StepKeepsFifo(s, a);
    StepKeepsWaiters(s, a);
    StepKeepsTakersCovered(s, a);
    if s.bound.Capacity? { StepKeepsPuttersCovered(s, a, s.bound.size); }
  }

  lemma {:induction false} RunKeepsInv<T>(s: Queue<T>, acts: seq<Action<T>>)
    requires Inv(s)
    ensures Inv(Run(s, acts)) && Run(s, acts).bound == s.bound
    decreases |acts|
  {
    if acts == [] {
    } else {
      if Enabled(s, acts[0]) { StepKeepsInv(s, acts[0]); }
      RunKeepsInv(if Enabled(s, acts[0]) then Next(s, acts[0]) else s, acts[1..]);
    }
  }

  // ---------------------------------------------------------------- main results

  /** Nobody sleeps un-notified next to work that no woken thread will pick up. */
  lemma NoLostWakeup<T>(bound: Bound, acts: seq<Action<T>>)
    ensures var s := Run(Init<T>(bound), acts);
      && (s.takers.asleep != {} ==> |s.items| <= |s.takers.woken|)
      && (s.putters.asleep != {} ==> bound.Capacity? && bound.size - |s.items| <= |s.putters.woken|)
  {
    RunKeepsInv(Init<T>(bound), acts);
  }

  ghost predicate Deadlocked<T>(s: Queue<T>) {
    && s.takers.asleep != {} && s.takers.woken == {}
    && s.putters.asleep != {} && s.putters.woken == {}
  }

  ghost predicate DeadlockedAfter<T>(bound: Bound, acts: seq<Action<T>>) {
    Deadlocked(Run(Init<T>(bound), acts))
  }

  lemma ZeroCapacityDeadlocks<T>(x: T)
    ensures DeadlockedAfter(Capacity(0), [Action<T>.Take(1, {}), Put(2, x, {1})])
  {
    var a0, a1 := Action<T>.Take(1, {}), Put(2, x, {1});
    var s0 := Init<T>(Capacity(0));
    var s1 := Next(s0, a0);
    assert [a0, a1][1..] == [a1] && [a1][1..] == [];
    assert Run(s1, [a1]) == Next(s1, a1);
  }

  /** Producers and consumers can all be asleep with nobody notified exactly when the queue was
      built with capacity 0, which the constructor accepts. */
  lemma DeadlockIffNoCapacity<T(!new)>(bound: Bound, x: T)
    ensures (exists acts: seq<Action<T>> :: DeadlockedAfter(bound, acts)) <==> bound == Capacity(0)
  {
    if bound == Capacity(0) {
      ZeroCapacityDeadlocks(x);
    } else {
      forall acts: seq<Action<T>> ensures !DeadlockedAfter(bound, acts) { NoLostWakeup(bound, acts); }
    }
  }

  // ---------------------------------------------------------------- order

  /** The values of thread `p`, in order. */
  function Of<T>(es: seq<Event<T>>, p: Tid): seq<T> {
    if es == [] then []
    else
      var rest := Of(es[..|es| - 1], p);
      if es[|es| - 1].t == p then rest + [es[|es| - 1].value] else rest
  }

  lemma OfAppend<T>(es: seq<Event<T>>, e: Event<T>, p: Tid)
    ensures Of(es + [e], p) == if e.t == p then Of(es, p) + [e.value] else Of(es, p)
  {
    assert (es + [e])[..|es|] == es;
  }

  ghost predicate ProducerOrder<T>(s: Queue<T>, p: Tid) {
    Of(s.calls, p) ==
      if p in s.pending then Of(s.puts, p) + [s.pending[p]] else Of(s.puts, p)
  }

  lemma OthersUnaffected<T>(s: Queue<T>, a: Action<T>, p: Tid)
    requires Enabled(s, a) && a.t != p
    ensures var s' := Next(s, a);
      Of(s'.calls, p) == Of(s.calls, p) && Of(s'.puts, p) == Of(s.puts, p)
      && (p in s'.pending <==> p in s.pending) && (p in s.pending ==> s'.pending[p] == s.pending[p])
  {
    if a.Put? {
      OfAppend(s.calls, Event(a.t, a.x), p);
      OfAppend(s.puts, Event(a.t, a.x), p);
    } else if a.ResumePut? {
      OfAppend(s.puts, Event(a.t, s.pending[a.t]), p);
    }
  }

  lemma StepKeepsProducerOrder<T>(s: Queue<T>, a: Action<T>, p: Tid)
    requires s.pending.Keys == s.putters.asleep + s.putters.woken
    requires ProducerOrder(s, p) && Enabled(s, a)
    ensures ProducerOrder(Next(s, a), p)
  {
    if a.t != p {
      OthersUnaffected(s, a, p);
    } else if a.Put? {
      OfAppend(s.calls, Event(p, a.x), p);
      OfAppend(s.puts, Event(p, a.x), p);
    } else if a.ResumePut? {
      OfAppend(s.puts, Event(p, s.pending[p]), p);
    }
  }

  lemma {:induction false} RunKeepsProducerOrder<T>(s: Queue<T>, acts: seq<Action<T>>, p: Tid)
    requires Inv(s) && ProducerOrder(s, p)
    ensures ProducerOrder(Run(s, acts), p)
    decreases |acts|
  {
    if acts == [] {
    } else {
      if Enabled(s, acts[0]) {
        StepKeepsInv(s, acts[0]);
        StepKeepsProducerOrder(s, acts[0], p);
      }
      RunKeepsProducerOrder(if Enabled(s, acts[0]) then Next(s, acts[0]) else s, acts[1..], p);
    }
  }

  // ---------------------------------------------------------------- calls and returns

  /** The actions of a run that were really executed. */
  function Executed<T>(s: Queue<T>, acts: seq<Action<T>>): seq<Action<T>>
    decreases |acts|
  {
    if acts == [] then []
    else if Enabled(s, acts[0]) then [acts[0]] + Executed(Next(s, acts[0]), acts[1..])
    else Executed(s, acts[1..])
  }

  /** The arguments of the calls of `put` by thread `p`, and the number of its calls of `take`. */
  function PutCalls<T>(acts: seq<Action<T>>, p: Tid): seq<T> {
    if acts == [] then []
    else (if acts[0].Put? && acts[0].t == p then [acts[0].x] else []) + PutCalls(acts[1..], p)
  }

  function TakeCalls<T>(acts: seq<Action<T>>, p: Tid): nat {
    if acts == [] then 0
    else (if acts[0].Take? && acts[0].t == p then 1 else 0) + TakeCalls(acts[1..], p)
  }

  lemma StepRecordsCall<T>(s: Queue<T>, a: Action<T>, p: Tid)
    requires Enabled(s, a)
    ensures a.Put? && a.t == p ==> Of(Next(s, a).calls, p) == Of(s.calls, p) + [a.x]
    ensures !(a.Put? && a.t == p) ==> Of(Next(s, a).calls, p) == Of(s.calls, p)
  {
    if a.Put? {
      assert Next(s, a).calls == s.calls + [Event(a.t, a.x)];
      OfAppend(s.calls, Event(a.t, a.x), p);
    } else {
      assert Next(s, a).calls == s.calls;
    }
  }

  lemma {:induction false} RunRecordsCalls<T>(s: Queue<T>, acts: seq<Action<T>>, p: Tid)
    ensures Of(Run(s, acts).calls, p) == Of(s.calls, p) + PutCalls(Executed(s, acts), p)
    decreases |acts|
  {
    if acts == [] {
    } else if Enabled(s, acts[0]) {
      StepRecordsCall(s, acts[0], p);
      RunRecordsCalls(Next(s, acts[0]), acts[1..], p);
      assert Executed(s, acts)[1..] == Executed(Next(s, acts[0]), acts[1..]);
    } else {
      RunRecordsCalls(s, acts[1..], p);
    }
  }

  /** How many calls of `take` by `p` have returned or are blocked. */
  function TakesOf<T>(s: Queue<T>, p: Tid): nat { |Of(s.takes, p)| + if s.takers.Has(p) then 1 else 0 }

  lemma StepRecordsTake<T>(s: Queue<T>, a: Action<T>, p: Tid)
    requires s.takers.Valid() && Enabled(s, a)
    ensures TakesOf(Next(s, a), p) == TakesOf(s, p) + if a.Take? && a.t == p then 1 else 0
  {
    if (a.Take? || a.ResumeTake?) && s.items != [] { OfAppend(s.takes, Event(a.t, s.items[0]), p); }
  }

  lemma {:induction false} RunRecordsTakes<T>(s: Queue<T>, acts: seq<Action<T>>, p: Tid)
    requires Inv(s)
    ensures TakesOf(Run(s, acts), p) == TakesOf(s, p) + TakeCalls(Executed(s, acts), p)
    decreases |acts|
  {
    if acts == [] {
    } else if Enabled(s, acts[0]) {
      StepKeepsInv(s, acts[0]);
      StepRecordsTake(s, acts[0], p);
      RunRecordsTakes(Next(s, acts[0]), acts[1..], p);
      assert Executed(s, acts)[1..] == Executed(Next(s, acts[0]), acts[1..]);
    } else {
      RunRecordsTakes(s, acts[1..], p);
    }
  }

  /** No call is lost: in every run the executed calls of `put` by each thread, in order, are its completed
      puts and then the one that is blocked, if there is one; and its executed calls of `take` are as many as
      the values it got, and one more if it is blocked. */
  lemma NoCallIsLost<T>(bound: Bound, acts: seq<Action<T>>, p: Tid)
    ensures var s := Run(Init<T>(bound), acts); var done := Executed(Init<T>(bound), acts);
      && PutCalls(done, p) == Of(s.puts, p) + (if p in s.pending then [s.pending[p]] else [])
      && (p in s.pending <==> s.putters.Has(p))
      && TakeCalls(done, p) == |Of(s.takes, p)| + (if s.takers.Has(p) then 1 else 0)
  {
    var s0 := Init<T>(bound);
    RunKeepsInv(s0, acts);
    RunRecordsCalls(s0, acts, p);
    RunKeepsProducerOrder(s0, acts, p);
    RunRecordsTakes(s0, acts, p);
    var s := Run(s0, acts);
    assert p in s.pending <==> s.putters.Has(p);
  }

  /** A call of `put` by a thread that is not blocked, or the next turn of one that was woken. With room the
      value goes in and a legal set of takers is woken; on a full queue the thread sleeps with its value. */
  lemma PutGoesInOrSleeps<T>(s: Queue<T>, t: Tid, x: T, wake: set<Tid>, resumed: bool)
    requires s.takers.Valid() && s.putters.Valid()
    requires if resumed then t in s.putters.woken && t in s.pending && s.pending[t] == x
             else t !in s.takers.asleep + s.takers.woken + s.putters.asleep + s.putters.woken && t !in s.pending
    requires wake <= s.takers.asleep && (s.takers.asleep != {} ==> wake != {})
    ensures var a := if resumed then ResumePut(t, wake) else Put(t, x, wake);
      && Enabled(s, a)
      && Next(s, a).takes == s.takes && Next(s, a).bound == s.bound
      && if s.bound.Capacity? && |s.items| >= s.bound.size then
           && t in Next(s, a).putters.asleep && Next(s, a).pending == s.pending[t := x]
           && Next(s, a).putters.asleep == s.putters.asleep + {t} && Next(s, a).putters.woken == s.putters.woken - {t}
           && Next(s, a).items == s.items && Next(s, a).puts == s.puts && Next(s, a).takers == s.takers
         else
           && Next(s, a).items == s.items + [x] && Next(s, a).puts == s.puts + [Event(t, x)]
           && Next(s, a).pending == s.pending - {t}
           && Next(s, a).putters.asleep == s.putters.asleep && Next(s, a).putters.woken == s.putters.woken - {t}
           && Next(s, a).takers.asleep == s.takers.asleep - wake && Next(s, a).takers.woken == s.takers.woken + wake
  {
  }

  /** The same for `take`: it gets the oldest value, or sleeps on an empty queue. */
  lemma TakeGetsOldestOrSleeps<T>(s: Queue<T>, t: Tid, wake: set<Tid>, resumed: bool)
    requires s.takers.Valid() && s.putters.Valid()
    requires if resumed then t in s.takers.woken
             else t !in s.takers.asleep + s.takers.woken + s.putters.asleep + s.putters.woken
    requires wake <= s.putters.asleep && (s.putters.asleep != {} ==> wake != {})
    ensures var a := if resumed then ResumeTake(t, wake) else Take(t, wake);
      && Enabled(s, a)
      && Next(s, a).puts == s.puts && Next(s, a).bound == s.bound && Next(s, a).pending == s.pending
      && if s.items == [] then
           && Next(s, a).takers.asleep == s.takers.asleep + {t} && Next(s, a).takers.woken == s.takers.woken - {t}
           && Next(s, a).items == [] && Next(s, a).takes == s.takes && Next(s, a).putters == s.putters
         else
           && [s.items[0]] + Next(s, a).items == s.items && Next(s, a).takes == s.takes + [Event(t, s.items[0])]
           && Next(s, a).takers.asleep == s.takers.asleep && Next(s, a).takers.woken == s.takers.woken - {t}
           && Next(s, a).putters.asleep == s.putters.asleep - wake && Next(s, a).putters.woken == s.putters.woken + wake
  {
  }

  /** Both queues refine one atomic FIFO: after every run the completed puts are the takes followed
      by the contents, the capacity is respected (so the ring never overwrites), and each producer's
      values went in in the order in which it really called `put`, of which only the last can be blocked. */
  lemma QueueIsFifo<T>(bound: Bound, acts: seq<Action<T>>)
    ensures var s := Run(Init<T>(bound), acts); var done := Executed(Init<T>(bound), acts);
      && Values(s.puts) == Values(s.takes) + s.items
      && (bound.Capacity? ==> |s.items| <= bound.size)
      && forall p :: PutCalls(done, p) == Of(s.puts, p) + if p in s.pending then [s.pending[p]] else []
  {
    RunKeepsInv(Init<T>(bound), acts);
    forall p
      ensures var s := Run(Init<T>(bound), acts);
        PutCalls(Executed(Init<T>(bound), acts), p) == Of(s.puts, p) + if p in s.pending then [s.pending[p]] else []
    {
      NoCallIsLost(bound, acts, p);
    }
  }
}
