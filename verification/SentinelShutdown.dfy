/**
 The client of BlockingQueue_test.cc and BoundBlockingQueue_test.cc: `n` consumers count the latch
 down and then take until they get "stop"; the main thread waits on the latch, puts the data, puts
 "stop" once per consumer, and joins. Consumers are threads 0 to n-1, the main thread is number n.
*/
module SentinelShutdown {
  import opened Conditions
  import opened Sequences
  import L = CountDownLatches
  import Q = BlockingQueues
  import C = QueueClasses

  const STOP := "stop"

  datatype Client = Client(bound: Q.Bound, n: nat, data: seq<string>) {
    /** Everything the main thread puts, in order. */
    function Script(): seq<string> { data + seq(n, _ => STOP) }
  }

  datatype Stage = Starting | Looping | Stopped

  datatype Phase = AtLatch | Putting(next: nat) | Finished

  datatype System = System(queue: Q.Queue<string>, latch: L.Latch, phase: Phase, consumers: seq<Stage>)

  datatype Action = Main(wake: set<Tid>) | Consumer(t: Tid, wake: set<Tid>) | RouseInQueue(t: Tid) | RouseMain

  function Init(c: Client): System {
    System(Q.Init(c.bound), L.Init(c.n), AtLatch, seq(c.n, _ => Starting))
  }

  predicate AllStopped(s: System) {
    forall t :: 0 <= t < |s.consumers| ==> s.consumers[t].Stopped?
  }

  /** The queue operation that the main thread or a consumer makes next. */
  function PutAction(c: Client, s: System, k: nat, wake: set<Tid>): Q.Action<string>
    requires k < |c.Script()|
  {
    if c.n in s.queue.putters.woken then Q.ResumePut(c.n, wake) else Q.Put(c.n, c.Script()[k], wake)
  }

  function TakeAction(s: System, t: Tid, wake: set<Tid>): Q.Action<string> {
    if t in s.queue.takers.woken then Q.ResumeTake(t, wake) else Q.Take(t, wake)
  }

  predicate Enabled(c: Client, s: System, a: Action) {
    match a
    case Main(wake) => (
      match s.phase
      case AtLatch => c.n !in s.latch.waiters.asleep
      case Putting(k) =>
        if k < |c.Script()| then Q.Enabled(s.queue, PutAction(c, s, k, wake)) else AllStopped(s)
      case Finished => false
      )
    case Consumer(t, wake) =>
      && t < |s.consumers|
      && (s.consumers[t].Starting? || (s.consumers[t].Looping? && Q.Enabled(s.queue, TakeAction(s, t, wake))))
    case RouseInQueue(t) => Q.Enabled(s.queue, Q.Rouse(t))
    case RouseMain => c.n in s.latch.waiters.asleep
  }

  function MainNext(c: Client, s: System, wake: set<Tid>): System
    requires Enabled(c, s, Main(wake))
  {
    match s.phase
    case AtLatch =>
      var s' := s.(latch := L.Next(s.latch, if c.n in s.latch.waiters.woken then L.Resume(c.n) else L.Wait(c.n)));
      if s.latch.count > 0 then s' else s'.(phase := Putting(0))
    case Putting(k) =>
      if k < |c.Script()| then
        var s' := s.(queue := Q.Next(s.queue, PutAction(c, s, k, wake)));
        if s.queue.Full() then s' else s'.(phase := Putting(k + 1))
      else
        s.(phase := Finished)
  }

  function ConsumerNext(c: Client, s: System, t: Tid, wake: set<Tid>): System
    requires Enabled(c, s, Consumer(t, wake))
  {
    if s.consumers[t].Starting? then
      s.(latch := L.Next(s.latch, L.CountDown), consumers := s.consumers[t := Looping])
    else
      var s' := s.(queue := Q.Next(s.queue, TakeAction(s, t, wake)));
      if s.queue.items != [] && s.queue.items[0] == STOP then
        s'.(consumers := s.consumers[t := Stopped])
      else s'
  }

  function Next(c: Client, s: System, a: Action): System
    requires Enabled(c, s, a)
  {
    match a
    case Main(wake) => MainNext(c, s, wake)
    case Consumer(t, wake) => ConsumerNext(c, s, t, wake)
    case RouseInQueue(t) => s.(queue := Q.Next(s.queue, Q.Rouse(t)))
    case RouseMain => s.(latch := L.Next(s.latch, L.Rouse(c.n)))
  }

  /** A run picks any action at each point; picking a disabled one changes nothing. */
  function Run(c: Client, s: System, acts: seq<Action>): System
    decreases |acts|
  {
    if acts == [] then s
    else Run(c, if Enabled(c, s, acts[0]) then Next(c, s, acts[0]) else s, acts[1..])
  }

  // ---------------------------------------------------------------- counting

  function One(b: bool): int { if b then 1 else 0 }

  function IsStop(x: string): int { One(x == STOP) }
  function IsStarting(g: Stage): int { One(g.Starting?) }
  function IsStopped(g: Stage): int { One(g.Stopped?) }

  /** How many sentinels consumer `t` has taken. */
  function StopsTakenBy(takes: seq<Q.Event<string>>, t: Tid): int {
    Total((e: Q.Event<string>) => One(e.t == t && e.value == STOP), takes)
  }

  /** The length of the shortest prefix of `xs` that holds `n` sentinels. */
  function Needed(xs: seq<string>, n: nat): nat {
    if n == 0 || xs == [] then 0
    else 1 + Needed(xs[1..], if xs[0] == STOP then n - 1 else n)
  }

  lemma {:induction false} NeededPrefix(xs: seq<string>, n: nat, m: nat)
    requires m <= |xs| && Total(IsStop, xs) >= n
    ensures Needed(xs, n) <= |xs|
    ensures m < Needed(xs, n) <==> Total(IsStop, xs[..m]) < n
  {
    TotalAtLeast(IsStop, xs[..m], 0);
    if n == 0 || xs == [] {
    } else {
      var rest := if xs[0] == STOP then n - 1 else n;
      if m > 0 {
        assert xs[..m][1..] == xs[1..][..m - 1];
        NeededPrefix(xs[1..], rest, m - 1);
      } else {
        NeededPrefix(xs[1..], rest, 0);
      }
    }
  }

  // ---------------------------------------------------------------- invariants

  function Position(c: Client, phase: Phase): nat {
    match phase
    case AtLatch => 0
    case Putting(k) => k
    case Finished => |c.Script()|
  }

  ghost predicate LatchOk(c: Client, s: System) {
    && L.Inv(s.latch)
    && s.latch.count == Total(IsStarting, s.consumers)
    && s.latch.waiters.asleep + s.latch.waiters.woken <= {c.n}
    && (s.latch.waiters.Has(c.n) ==> s.phase.AtLatch?)
    && (!s.phase.AtLatch? ==> Total(IsStarting, s.consumers) == 0)
  }

  ghost predicate ThreadsOk(c: Client, s: System) {
    && |s.consumers| == c.n
    && s.queue.bound == c.bound
    && (c.n == 0 ==> s.queue.takes == [])
    && (s.phase.Finished? ==> AllStopped(s))
    && TakersOk(c, s) && PuttersOk(c, s)
  }

  /** Only consumers in their loop wait for items. */
  ghost predicate TakersOk(c: Client, s: System) {
    && (forall t :: t in s.queue.takers.asleep ==> t < c.n && t < |s.consumers| && s.consumers[t].Looping?)
    && (forall t :: t in s.queue.takers.woken ==> t < c.n && t < |s.consumers| && s.consumers[t].Looping?)
  }

  /** Only the main thread waits for room, with the next item of the script. */
  ghost predicate PuttersOk(c: Client, s: System) {
    && s.queue.putters.asleep + s.queue.putters.woken <= {c.n}
    && (s.queue.putters.Has(c.n) ==>
          && s.phase.Putting? && s.phase.next < |c.Script()|
          && c.n in s.queue.pending && s.queue.pending[c.n] == c.Script()[s.phase.next])
  }

  ghost predicate ProgressOk(c: Client, s: System) {
    && Position(c, s.phase) <= |c.Script()|
    && Q.Values(s.queue.puts) == c.Script()[..Position(c, s.phase)]
  }

  ghost predicate StopsOk(s: System) {
    && Total(IsStopped, s.consumers) == Total(IsStop, Q.Values(s.queue.takes))
    && (forall t :: 0 <= t < |s.consumers| ==>
          StopsTakenBy(s.queue.takes, t) == IsStopped(s.consumers[t]))
  }

  ghost predicate Inv(c: Client, s: System) {
    Q.Inv(s.queue) && LatchOk(c, s) && ThreadsOk(c, s) && ProgressOk(c, s) && StopsOk(s)
  }

  /** The queue operation that a step makes, if it makes one. */
  function QueueActions(c: Client, s: System, a: Action): seq<Q.Action<string>>
    requires Enabled(c, s, a)
  {
    match a
    case Main(wake) =>
      if s.phase.Putting? && s.phase.next < |c.Script()| then [PutAction(c, s, s.phase.next, wake)] else []
    case Consumer(t, wake) => if s.consumers[t].Looping? then [TakeAction(s, t, wake)] else []
    case RouseInQueue(t) => [Q.Rouse(t)]
    case RouseMain => []
  }

  lemma QueueStep(c: Client, s: System, a: Action)
    requires Enabled(c, s, a)
    ensures var qs := QueueActions(c, s, a); var q' := Next(c, s, a).queue;
      if qs == [] then q' == s.queue
      else |qs| == 1 && Q.Enabled(s.queue, qs[0]) && q' == Q.Next(s.queue, qs[0])
  {
  }

  function LatchActions(c: Client, s: System, a: Action): seq<L.Action>
    requires Enabled(c, s, a)
  {
    match a
    case Main(_) =>
      if s.phase.AtLatch? then [if c.n in s.latch.waiters.woken then L.Resume(c.n) else L.Wait(c.n)] else []
    case Consumer(t, _) => if s.consumers[t].Starting? then [L.CountDown] else []
    case RouseInQueue(_) => []
    case RouseMain => [L.Rouse(c.n)]
  }

  lemma LatchStep(c: Client, s: System, a: Action)
    requires Enabled(c, s, a)
    ensures var ls := LatchActions(c, s, a); var l' := Next(c, s, a).latch;
      if ls == [] then l' == s.latch else |ls| == 1 && L.Enabled(s.latch, ls[0]) && l' == L.Next(s.latch, ls[0])
  {
  }

  /** The queue and the latch of every run of the client are those of a run of the queue alone and of one of
      the latch alone, in which everything proved about them holds. */
  lemma {:induction false} ComponentsRunAlone(c: Client, s: System, acts: seq<Action>)
    returns (qs: seq<Q.Action<string>>, ls: seq<L.Action>)
    ensures Run(c, s, acts).queue == Q.Run(s.queue, qs) && Run(c, s, acts).latch == L.Run(s.latch, ls)
    decreases |acts|
  {
    if acts == [] {
      qs, ls := [], [];
    } else if Enabled(c, s, acts[0]) {
      QueueStep(c, s, acts[0]);
      LatchStep(c, s, acts[0]);
      qs, ls := ComponentsRunAlone(c, Next(c, s, acts[0]), acts[1..]);
      qs := Before(QueueActions(c, s, acts[0]), qs);
      ls := Before(LatchActions(c, s, acts[0]), ls);
    } else {
      qs, ls := ComponentsRunAlone(c, s, acts[1..]);
    }
  }

  lemma StepKeepsQueue(c: Client, s: System, a: Action)
    requires Q.Inv(s.queue) && Enabled(c, s, a)
    ensures Q.Inv(Next(c, s, a).queue)
  {
    QueueStep(c, s, a);
    var qs := QueueActions(c, s, a);
    if qs != [] { Q.StepKeepsInv(s.queue, qs[0]); }
  }

  lemma StepKeepsLatch(c: Client, s: System, a: Action)
    requires LatchOk(c, s) && Enabled(c, s, a)
    ensures LatchOk(c, Next(c, s, a))
  {
    TotalAtLeast(IsStarting, Next(c, s, a).consumers, 0);
    if a.Consumer? {
      TotalUpdate(IsStarting, s.consumers, a.t, Next(c, s, a).consumers[a.t]);
    }
  }

  lemma StepKeepsTakers(c: Client, s: System, a: Action)
    requires Q.WaitersOk(s.queue) && |s.consumers| == c.n && TakersOk(c, s) && Enabled(c, s, a)
    ensures TakersOk(c, Next(c, s, a))
  {
  }

  lemma StepKeepsPutters(c: Client, s: System, a: Action)
    requires Q.WaitersOk(s.queue) && PuttersOk(c, s) && Enabled(c, s, a)
    ensures PuttersOk(c, Next(c, s, a))
  {
  }

  lemma StepKeepsThreads(c: Client, s: System, a: Action)
    requires ThreadsOk(c, s) && Enabled(c, s, a)
    requires TakersOk(c, Next(c, s, a)) && PuttersOk(c, Next(c, s, a))
    ensures ThreadsOk(c, Next(c, s, a))
  {
  }

  lemma StepKeepsProgress(c: Client, s: System, a: Action)
    requires ThreadsOk(c, s) && ProgressOk(c, s) && Enabled(c, s, a)
    ensures ProgressOk(c, Next(c, s, a))
  {
    var s' := Next(c, s, a);
    if a.Main? && s'.queue.puts != s.queue.puts {
      var k := s.phase.next;
      assert c.Script()[..k + 1] == c.Script()[..k] + [c.Script()[k]];
      assert Q.Values(s'.queue.puts) == Q.Values(s.queue.puts) + [c.Script()[k]];
    }
  }

  /** What one successful take adds to the counts. */
  lemma TakeAddsStop(s: System, s': System, t: Tid, x: string)
    requires StopsOk(s) && t < |s.consumers|
    requires s'.queue.takes == s.queue.takes + [Q.Event(t, x)]
    requires s.consumers[t].Looping?
    requires s'.consumers == s.consumers[t := if x == STOP then Stopped else Looping]
    ensures StopsOk(s')
  {
    TotalUpdate(IsStopped, s.consumers, t, s'.consumers[t]);
    assert Q.Values(s'.queue.takes) == Q.Values(s.queue.takes) + [x];
    TotalAppend(IsStop, Q.Values(s.queue.takes), x);
    forall u | 0 <= u < |s'.consumers|
      ensures StopsTakenBy(s'.queue.takes, u) == IsStopped(s'.consumers[u])
    {
      TotalAppend((e: Q.Event<string>) => One(e.t == u && e.value == STOP), s.queue.takes, Q.Event(t, x));
    }
  }

  lemma NoTakeKeepsStops(s: System, s': System, t: Tid)
    requires StopsOk(s) && t < |s.consumers| && !s.consumers[t].Stopped?
    requires s'.queue.takes == s.queue.takes && s'.consumers == s.consumers[t := Looping]
    ensures StopsOk(s')
  {
    TotalUpdate(IsStopped, s.consumers, t, Looping);
  }

  lemma StepKeepsStops(c: Client, s: System, a: Action)
    requires StopsOk(s) && Enabled(c, s, a)
    ensures StopsOk(Next(c, s, a))
  {
    var s' := Next(c, s, a);
    if a.Consumer? && s.consumers[a.t].Looping? && s.queue.items != [] {
      var x := s.queue.items[0];
      assert s'.consumers == s.consumers[a.t := if x == STOP then Stopped else Looping];
      TakeAddsStop(s, s', a.t, x);
    } else if a.Consumer? {
      NoTakeKeepsStops(s, s', a.t);
    } else {
      assert s'.consumers == s.consumers && s'.queue.takes == s.queue.takes;
    }
  }

  lemma StepKeepsInv(c: Client, s: System, a: Action)
    requires Inv(c, s) && Enabled(c, s, a)
    ensures Inv(c, Next(c, s, a))
  {
    StepKeepsQueue(c, s, a);
    StepKeepsLatch(c, s, a);
    StepKeepsTakers(c, s, a);
    StepKeepsPutters(c, s, a);
    StepKeepsThreads(c, s, a);
    StepKeepsProgress(c, s, a);
    StepKeepsStops(c, s, a);
  }

  lemma {:induction false} RunKeepsInv(c: Client, s: System, acts: seq<Action>)
    requires Inv(c, s)
    ensures Inv(c, Run(c, s, acts))
    decreases |acts|
  {
    if acts == [] {
    } else {
      if Enabled(c, s, acts[0]) { StepKeepsInv(c, s, acts[0]); }
      RunKeepsInv(c, if Enabled(c, s, acts[0]) then Next(c, s, acts[0]) else s, acts[1..]);
    }
  }

  lemma InitCounts(n: nat)
    ensures var gs := seq(n, _ => Starting);
      Total(IsStarting, gs) == n && Total(IsStopped, gs) == 0
  {
    var gs := seq(n, _ => Starting);
    TotalAtLeast(IsStarting, gs, 1);
    TotalAtMost(IsStarting, gs, 1);
    TotalAtLeast(IsStopped, gs, 0);
    TotalAtMost(IsStopped, gs, 0);
  }

  lemma InitInv(c: Client)
    ensures Inv(c, Init(c))
  {
    var s := Init(c);
    InitCounts(c.n);
    assert s.queue.takers == NoWaiters && s.queue.putters == NoWaiters;
  }

  // ---------------------------------------------------------------- safety

  lemma TakesArePrefix(c: Client, s: System)
    requires Inv(c, s)
    ensures |s.queue.takes| + |s.queue.items| == Position(c, s.phase)
    ensures |s.queue.takes| <= |c.Script()| && Q.Values(s.queue.takes) == c.Script()[..|s.queue.takes|]
  {
    var m := |s.queue.takes|;
    assert Q.Values(s.queue.takes) == (Q.Values(s.queue.takes) + s.queue.items)[..m];
  }

  lemma StopsInPrefix(c: Client, m: nat)
    requires m <= |c.Script()|
    ensures Total(IsStop, c.Script()) == Total(IsStop, c.data) + c.n
    ensures Total(IsStop, c.Script()[..m]) + Total(IsStop, c.Script()[m..]) == Total(IsStop, c.Script())
    ensures 0 <= Total(IsStop, c.Script()[m..])
  {
    var stops := seq(c.n, _ => STOP);
    TotalSplit(IsStop, c.data, stops);
    TotalAtLeast(IsStop, stops, 1);
    TotalAtMost(IsStop, stops, 1);
    TotalAtLeast(IsStop, c.Script()[m..], 0);
    assert c.Script()[..m] + c.Script()[m..] == c.Script();
    TotalSplit(IsStop, c.Script()[..m], c.Script()[m..]);
  }

  lemma StopsInScript(c: Client)
    ensures Total(IsStop, c.Script()) >= c.n
  {
    StopsInPrefix(c, 0);
    TotalAtLeast(IsStop, c.data, 0);
  }

  /** What the consumers of state `s` have received so far. */
  function Received(s: System): seq<string> { Q.Values(s.queue.takes) }

  lemma OrderInState(c: Client, s: System)
    requires Inv(c, s)
    ensures |Received(s)| <= |c.Script()| && Received(s) == c.Script()[..|Received(s)|]
    ensures STOP !in c.data ==> forall i :: 0 <= i < |Received(s)| && Received(s)[i] == STOP ==> i >= |c.data|
  {
    TakesArePrefix(c, s);
  }

  /** In every run nothing is put before all consumers have started, and the consumers receive the data and
      then the sentinels, in order, so that no sentinel is taken before all the data (unless the data hold
      one). */
  lemma SentinelsComeLast(c: Client, acts: seq<Action>)
    ensures var s := Run(c, Init(c), acts); var got := Received(s);
      && (s.queue.puts != [] ==> forall t :: 0 <= t < |s.consumers| ==> !s.consumers[t].Starting?)
      && |got| <= |c.data| + c.n
      && (forall i :: 0 <= i < |got| ==> got[i] == if i < |c.data| then c.data[i] else "stop")
      && ("stop" !in c.data ==> forall i :: 0 <= i < |got| && got[i] == "stop" ==> i >= |c.data|)
  {
    InitInv(c);
    RunKeepsInv(c, Init(c), acts);
    var s := Run(c, Init(c), acts);
    OrderInState(c, s);
    forall t: nat | s.queue.puts != [] && t < |s.consumers| ensures !s.consumers[t].Starting? {
      assert |Q.Values(s.queue.puts)| == |s.queue.puts|;
      NobodyStarting(c, s, t);
    }
  }

  /** In every run a consumer has taken one sentinel if it has stopped and none otherwise. */
  lemma OneSentinelEach(c: Client, acts: seq<Action>, t: nat)
    requires t < c.n
    ensures var s := Run(c, Init(c), acts);
      |s.consumers| == c.n && StopsTakenBy(s.queue.takes, t) == if s.consumers[t].Stopped? then 1 else 0
  {
    InitInv(c);
    RunKeepsInv(c, Init(c), acts);
  }

  /** After the script the queue holds what no consumer will take. */
  lemma LastIsStop(c: Client, m: nat)
    requires m < |c.Script()| && c.n > 0
    ensures Total(IsStop, c.Script()[m..]) >= 1
  {
    var rest := c.Script()[m..];
    assert rest[|rest| - 1] == STOP;
    assert rest == rest[..|rest| - 1] + [STOP];
    TotalAppend(IsStop, rest[..|rest| - 1], STOP);
    TotalAtLeast(IsStop, rest[..|rest| - 1], 0);
  }

  lemma StoppedCount(s: System)
    requires AllStopped(s)
    ensures Total(IsStopped, s.consumers) == |s.consumers|
  {
    TotalAtLeast(IsStopped, s.consumers, 1);
    TotalAtMost(IsStopped, s.consumers, 1);
  }

  lemma StopFree(xs: seq<string>)
    ensures Total(IsStop, xs) == 0 <==> STOP !in xs
  {
    if STOP !in xs {
      TotalAtMost(IsStop, xs, 0);
      TotalAtLeast(IsStop, xs, 0);
    } else {
      var i :| 0 <= i < |xs| && xs[i] == STOP;
      TotalUpdate(IsStop, xs, i, "");
      TotalAtLeast(IsStop, xs[i := ""], 0);
    }
  }

  lemma FinishedState(c: Client, s: System)
    requires Inv(c, s) && s.phase.Finished?
    ensures s.queue.items == [] <==> STOP !in c.data && (c.n > 0 || c.data == [])
    ensures s.queue.items == [] ==> Received(s) == c.Script()
  {
    var m := |s.queue.takes|;
    TakesArePrefix(c, s);
    StopsInPrefix(c, m);
    StoppedCount(s);
    TotalAtLeast(IsStop, c.data, 0);
    StopFree(c.data);
    if m < |c.Script()| {
      if c.n > 0 { LastIsStop(c, m); }
    } else {
      assert c.Script()[..m] == c.Script();
      assert c.Script()[m..] == [];
      assert c.n == 0 ==> c.Script() == c.data;
    }
  }

  /** When the joins have returned, the queue is empty and the consumers have received the whole script,
      that is all the data and the sentinels, exactly when the data contained no sentinel (and there was
      a consumer, or nothing to consume). */
  lemma AllConsumedIffNoStopInData(c: Client, acts: seq<Action>)
    requires Run(c, Init(c), acts).phase.Finished?
    ensures var s := Run(c, Init(c), acts);
      && (s.queue.items == [] <==> "stop" !in c.data && (c.n > 0 || c.data == []))
      && (s.queue.items == [] ==> Received(s) == c.data + seq(c.n, _ => "stop"))
  {
    InitInv(c);
    RunKeepsInv(c, Init(c), acts);
    FinishedState(c, Run(c, Init(c), acts));
  }

  // ---------------------------------------------------------------- when the client gets stuck

  /** What is left after the `n`-th sentinel of the script stays in the queue for good. */
  predicate Fits(c: Client) {
    match c.bound
    case Unbounded => true
    case Capacity(size) =>
      c.Script() == [] || (size >= 1 && |c.Script()| - Needed(c.Script(), c.n) <= size)
  }

  ghost predicate TakesOk(c: Client, s: System) {
    && |s.queue.takes| <= Needed(c.Script(), c.n)
    && (c.bound == Q.Capacity(0) ==> s.queue.puts == [])
  }

  /** As long as a consumer is in its loop, the next item is still needed. */
  lemma LooperNeedsItem(c: Client, s: System, t: nat)
    requires Inv(c, s) && t < c.n && s.consumers[t].Looping? && s.queue.items != []
    ensures |s.queue.takes| < Needed(c.Script(), c.n)
  {
    TakesArePrefix(c, s);
    StopsInScript(c);
    NeededPrefix(c.Script(), c.n, |s.queue.takes|);
    TotalUpdate(IsStopped, s.consumers, t, Stopped);
    TotalAtMost(IsStopped, s.consumers[t := Stopped], 1);
  }

  lemma StepKeepsTakes(c: Client, s: System, a: Action)
    requires TakesOk(c, s) && Enabled(c, s, a) && s.queue.bound == c.bound
    requires a.Consumer? && s.consumers[a.t].Looping? && s.queue.items != [] ==>
      |s.queue.takes| < Needed(c.Script(), c.n)
    ensures TakesOk(c, Next(c, s, a))
  {
    QueueStep(c, s, a);
  }

  lemma {:induction false} RunKeepsTakes(c: Client, s: System, acts: seq<Action>)
    requires Inv(c, s) && TakesOk(c, s)
    ensures Inv(c, Run(c, s, acts)) && TakesOk(c, Run(c, s, acts))
    decreases |acts|
  {
    if acts == [] {
    } else {
      if Enabled(c, s, acts[0]) {
        StepKeepsInv(c, s, acts[0]);
        if acts[0].Consumer? && s.consumers[acts[0].t].Looping? && s.queue.items != [] {
          LooperNeedsItem(c, s, acts[0].t);
        }
        StepKeepsTakes(c, s, acts[0]);
      }
      RunKeepsTakes(c, if Enabled(c, s, acts[0]) then Next(c, s, acts[0]) else s, acts[1..]);
    }
  }

  lemma NeverFinishes(c: Client, s: System)
    requires Inv(c, s) && TakesOk(c, s) && !Fits(c)
    ensures !s.phase.Finished?
  {
    TakesArePrefix(c, s);
  }

  predicate IsRouse(a: Action) { a.RouseInQueue? || a.RouseMain? }

  /** Some step other than a spurious wake-up is possible. */
  ghost predicate CanMove(c: Client, s: System) {
    exists a :: Enabled(c, s, a) && !IsRouse(a)
  }

  lemma AwakeConsumerCanMove(c: Client, s: System, t: Tid)
    requires Inv(c, s) && t < c.n && s.consumers[t].Looping? && t !in s.queue.takers.asleep
    ensures CanMove(c, s)
  {
    assert !s.queue.putters.Has(t);
    assert Enabled(c, s, Consumer(t, s.queue.putters.asleep));
  }

  /** A consumer that is still in its loop can move, or another one can, unless the queue is empty. */
  lemma LoopingConsumerIsServed(c: Client, s: System, t: Tid)
    requires Inv(c, s) && t < c.n && s.consumers[t].Looping? && s.queue.items != []
    ensures CanMove(c, s)
  {
    if t !in s.queue.takers.asleep {
      AwakeConsumerCanMove(c, s, t);
    } else {
      var u :| u in s.queue.takers.woken;
      AwakeConsumerCanMove(c, s, u);
    }
  }

  lemma StartIsServed(c: Client, s: System)
    requires Inv(c, s) && s.phase.AtLatch?
    ensures CanMove(c, s)
  {
    if c.n !in s.latch.waiters.asleep {
      assert Enabled(c, s, Main({}));
    } else {
      if forall i :: 0 <= i < |s.consumers| ==> IsStarting(s.consumers[i]) <= 0 {
        TotalAtMost(IsStarting, s.consumers, 0);
      }
      var t :| 0 <= t < |s.consumers| && !(IsStarting(s.consumers[t]) <= 0);
      assert Enabled(c, s, Consumer(t, {}));
    }
  }

  /** After the latch every consumer is in its loop or has stopped. */
  lemma NobodyStarting(c: Client, s: System, t: nat)
    requires LatchOk(c, s) && !s.phase.AtLatch? && t < |s.consumers|
    ensures !s.consumers[t].Starting?
  {
    TotalUpdate(IsStarting, s.consumers, t, Stopped);
    TotalAtLeast(IsStarting, s.consumers[t := Stopped], 0);
  }

  /** A full queue in which nobody is left to take cannot hold up the main thread. */
  lemma NotAllStopped(c: Client, s: System)
    requires Inv(c, s) && TakesOk(c, s) && Fits(c) && c.bound.Capacity?
    requires s.phase.Putting? && s.phase.next < |c.Script()| && |s.queue.items| >= c.bound.size
    ensures !AllStopped(s)
  {
    if AllStopped(s) {
      TakesArePrefix(c, s);
      StopsInScript(c);
      StoppedCount(s);
      NeededPrefix(c.Script(), c.n, |s.queue.takes|);
    }
  }

  lemma PuttingIsServed(c: Client, s: System)
    requires Inv(c, s) && TakesOk(c, s) && Fits(c)
    requires s.phase.Putting? && s.phase.next < |c.Script()|
    ensures CanMove(c, s)
  {
    if c.n !in s.queue.putters.asleep {
      assert !s.queue.takers.Has(c.n);
      assert Enabled(c, s, Main(s.queue.takers.asleep));
    } else {
      assert s.queue.putters.woken == {};
      NotAllStopped(c, s);
      var t: nat :| t < |s.consumers| && !s.consumers[t].Stopped?;
      NobodyStarting(c, s, t);
      LoopingConsumerIsServed(c, s, t);
    }
  }

  /** Once the whole script has been put, a consumer that has not stopped finds its sentinel in the queue. */
  lemma LooperHasItems(c: Client, s: System, t: nat)
    requires Q.Fifo(s.queue) && ThreadsOk(c, s) && ProgressOk(c, s) && StopsOk(s)
    requires Position(c, s.phase) == |c.Script()| && t < |s.consumers| && !s.consumers[t].Stopped?
    ensures s.queue.items != []
  {
    if s.queue.items == [] {
      assert Received(s) == Q.Values(s.queue.puts) == c.Script();
      StopsInScript(c);
      TotalUpdate(IsStopped, s.consumers, t, Stopped);
      TotalAtMost(IsStopped, s.consumers[t := Stopped], 1);
      assert false;
    }
  }

  lemma JoiningIsServed(c: Client, s: System)
    requires Inv(c, s) && s.phase.Putting? && s.phase.next == |c.Script()|
    ensures CanMove(c, s)
  {
    if AllStopped(s) {
      assert Enabled(c, s, Main({}));
    } else {
      var t: nat :| t < |s.consumers| && !s.consumers[t].Stopped?;
      NobodyStarting(c, s, t);
      LooperHasItems(c, s, t);
      LoopingConsumerIsServed(c, s, t);
    }
  }

  lemma NeverStuck(c: Client, s: System)
    requires Inv(c, s) && TakesOk(c, s) && Fits(c) && !s.phase.Finished?
    ensures CanMove(c, s)
  {
    if s.phase.AtLatch? { StartIsServed(c, s); }
    else if s.phase.next < |c.Script()| { PuttingIsServed(c, s); }
    else { JoiningIsServed(c, s); }
  }

  // ---------------------------------------------------------------- every run is finite

  function StageWeight(g: Stage): int {
    match g
    case Starting => 3
    case Looping => 1
    case Stopped => 0
  }

  function MainWeight(c: Client, s: System): int {
    (match s.phase case AtLatch => 2 case Putting(_) => 1 case Finished => 0)
    + if c.n in s.latch.waiters.asleep || c.n in s.queue.putters.asleep then 0 else 1
  }

  /** The part of the rank that the queue and the consumers contribute. */
  function Load(s: System): int {
    2 * |s.queue.items| + Total(StageWeight, s.consumers) - |s.queue.takers.asleep|
  }

  ghost function Rank(c: Client, s: System): int
    requires ProgressOk(c, s)
  {
    Times(c.n + 4, |c.Script()| - Position(c, s.phase)) + Load(s) + MainWeight(c, s)
  }

  lemma SleepersAreConsumers(c: Client, s: System)
    requires ThreadsOk(c, s)
    ensures |s.queue.takers.asleep| <= c.n
  {
    BoundedSet(s.queue.takers.asleep, c.n);
  }

  lemma PutStepLoad(c: Client, s: System, wake: set<Tid>)
    requires Q.WaitersOk(s.queue) && LatchOk(c, s) && ThreadsOk(c, s) && Enabled(c, s, Main(wake))
    requires s.phase.Putting? && s.phase.next < |c.Script()|
    ensures var s' := Next(c, s, Main(wake));
      if s'.phase == s.phase then Load(s') == Load(s) && MainWeight(c, s') < MainWeight(c, s)
      else Load(s') <= Load(s) + c.n + 2 && MainWeight(c, s') <= MainWeight(c, s)
  {
    SleepersAreConsumers(c, s);
    s.queue.takers.NotifyCounts(wake);
  }

  lemma MainStepRank(c: Client, s: System, wake: set<Tid>)
    requires Q.WaitersOk(s.queue) && LatchOk(c, s) && ThreadsOk(c, s) && ProgressOk(c, s)
    requires Enabled(c, s, Main(wake))
    requires ProgressOk(c, Next(c, s, Main(wake)))
    ensures Rank(c, Next(c, s, Main(wake))) < Rank(c, s)
  {
    var s' := Next(c, s, Main(wake));
    if s.phase.Putting? && s.phase.next < |c.Script()| {
      PutStepLoad(c, s, wake);
      var k, k' := Position(c, s.phase), Position(c, s'.phase);
      if k' != k {
        TimesGap(c.n + 4, |c.Script()| - k', |c.Script()| - k);
      }
    }
  }

  lemma ConsumerStepLoad(c: Client, s: System, t: Tid, wake: set<Tid>)
    requires s.queue.takers.Valid() && Enabled(c, s, Consumer(t, wake))
    ensures var s' := Next(c, s, Consumer(t, wake));
      && s'.phase == s.phase
      && (if s.consumers[t].Starting? || s.queue.items != [] then Load(s') <= Load(s) - 2
          else Load(s') <= Load(s) - 1 && MainWeight(c, s') == MainWeight(c, s))
      && MainWeight(c, s') <= MainWeight(c, s) + 1
  {
    var s' := Next(c, s, Consumer(t, wake));
    assert s'.consumers == s.consumers[t := s'.consumers[t]];
    TotalUpdate(StageWeight, s.consumers, t, s'.consumers[t]);
  }

  lemma OtherStepLoad(c: Client, s: System, a: Action)
    requires s.queue.takers.Valid() && Enabled(c, s, a) && !a.Main?
    ensures var s' := Next(c, s, a);
      && s'.phase == s.phase
      && Load(s') + MainWeight(c, s') <= Load(s) + MainWeight(c, s) + if IsRouse(a) then 1 else -1
  {
    match a
    case Consumer(t, wake) => ConsumerStepLoad(c, s, t, wake);
    case RouseInQueue(t) => if t in s.queue.takers.asleep { s.queue.takers.RouseCounts(t); }
    case RouseMain =>
  }

  lemma StepRank(c: Client, s: System, a: Action)
    requires Q.WaitersOk(s.queue) && LatchOk(c, s) && ThreadsOk(c, s) && ProgressOk(c, s)
    requires Enabled(c, s, a) && ProgressOk(c, Next(c, s, a))
    ensures Rank(c, Next(c, s, a)) <= if IsRouse(a) then Rank(c, s) + 1 else Rank(c, s) - 1
  {
    if a.Main? {
      MainStepRank(c, s, a.wake);
    } else {
      OtherStepLoad(c, s, a);
    }
  }

  lemma RankNonNegative(c: Client, s: System)
    requires ThreadsOk(c, s) && ProgressOk(c, s)
    ensures Rank(c, s) + c.n >= 0
  {
    SleepersAreConsumers(c, s);
    TotalAtLeast(StageWeight, s.consumers, 0);
  }

  /** The steps a run really makes, without the spurious wake-ups; and the spurious wake-ups. */
  function Moves(c: Client, s: System, acts: seq<Action>): nat
    decreases |acts|
  {
    if acts == [] then 0
    else if !Enabled(c, s, acts[0]) then Moves(c, s, acts[1..])
    else (if IsRouse(acts[0]) then 0 else 1) + Moves(c, Next(c, s, acts[0]), acts[1..])
  }

  function Rouses(c: Client, s: System, acts: seq<Action>): nat
    decreases |acts|
  {
    if acts == [] then 0
    else if !Enabled(c, s, acts[0]) then Rouses(c, s, acts[1..])
    else (if IsRouse(acts[0]) then 1 else 0) + Rouses(c, Next(c, s, acts[0]), acts[1..])
  }

  lemma {:induction false} RunRank(c: Client, s: System, acts: seq<Action>)
    requires Inv(c, s)
    ensures Inv(c, Run(c, s, acts))
    ensures Moves(c, s, acts) + Rank(c, Run(c, s, acts)) <= Rank(c, s) + Rouses(c, s, acts)
    decreases |acts|
  {
    if acts == [] {
    } else {
      if Enabled(c, s, acts[0]) {
        StepKeepsInv(c, s, acts[0]);
        StepRank(c, s, acts[0]);
        RunRank(c, Next(c, s, acts[0]), acts[1..]);
      } else {
        RunRank(c, s, acts[1..]);
      }
    }
  }

  lemma InitLoad(c: Client)
    ensures Load(Init(c)) == 3 * c.n && MainWeight(c, Init(c)) == 3
  {
    var gs := Init(c).consumers;
    TotalAtLeast(StageWeight, gs, 3);
    TotalAtMost(StageWeight, gs, 3);
  }

  lemma InitRank(c: Client)
    requires ProgressOk(c, Init(c))
    ensures Rank(c, Init(c)) == Times(c.n + 4, |c.data| + c.n) + 3 * c.n + 3
  {
    InitLoad(c);
    assert |c.Script()| == |c.data| + c.n;
  }

  /** No schedule can postpone the end for ever: every run makes a bounded number of steps, plus one for
      each spurious wake-up. */
  lemma RunsAreBounded(c: Client, acts: seq<Action>)
    ensures Moves(c, Init(c), acts) <=
      (c.n + 4) * (|c.data| + c.n) + 4 * c.n + 3 + Rouses(c, Init(c), acts)
  {
    TimesIsProduct(c.n + 4, |c.data| + c.n);
    InitInv(c);
    InitRank(c);
    RunRank(c, Init(c), acts);
    RankNonNegative(c, Run(c, Init(c), acts));
  }

  /** Continuing as long as possible ends in a state where nothing but spurious wake-ups can happen. */
  lemma {:induction false} RunToTheEnd(c: Client, s: System) returns (acts: seq<Action>)
    requires Inv(c, s)
    ensures !CanMove(c, Run(c, s, acts))
    decreases Rank(c, s) + c.n
  {
    RankNonNegative(c, s);
    if a :| Enabled(c, s, a) && !IsRouse(a) {
      StepKeepsInv(c, s, a);
      StepRank(c, s, a);
      RankNonNegative(c, Next(c, s, a));
      var rest := RunToTheEnd(c, Next(c, s, a));
      acts := [a] + rest;
      assert acts[1..] == rest;
    } else {
      acts := [];
    }
  }

  lemma FittingStateGoesOn(c: Client, s: System)
    requires Inv(c, s) && TakesOk(c, s) && Fits(c)
    ensures s.phase.Finished? || CanMove(c, s)
  {
    if !s.phase.Finished? { NeverStuck(c, s); }
  }

  lemma FittingRunGoesOn(c: Client, acts: seq<Action>)
    requires Fits(c)
    ensures Run(c, Init(c), acts).phase.Finished? || CanMove(c, Run(c, Init(c), acts))
  {
    InitInv(c);
    RunKeepsTakes(c, Init(c), acts);
    FittingStateGoesOn(c, Run(c, Init(c), acts));
  }

  lemma OverfullRunNeverFinishes(c: Client, acts: seq<Action>)
    requires !Fits(c)
    ensures !Run(c, Init(c), acts).phase.Finished?
  {
    InitInv(c);
    RunKeepsTakes(c, Init(c), acts);
    NeverFinishes(c, Run(c, Init(c), acts));
  }

  ghost predicate StuckAfter(c: Client, acts: seq<Action>) {
    !Run(c, Init(c), acts).phase.Finished? && !CanMove(c, Run(c, Init(c), acts))
  }

  /** The client finishes under every schedule exactly when what it puts after the `n`-th sentinel fits
      in the queue (and the queue can hold anything at all, if there is anything to put); otherwise it
      gets stuck under some schedule and finishes under none. */
  lemma FinishesIffFits(c: Client)
    ensures Fits(c) <==> forall acts :: !StuckAfter(c, acts)
    ensures !Fits(c) ==> forall acts :: !Run(c, Init(c), acts).phase.Finished?
  {
    if Fits(c) {
      forall acts ensures !StuckAfter(c, acts) { FittingRunGoesOn(c, acts); }
    } else {
      forall acts ensures !Run(c, Init(c), acts).phase.Finished? { OverfullRunNeverFinishes(c, acts); }
      InitInv(c);
      var acts := RunToTheEnd(c, Init(c));
      assert StuckAfter(c, acts);
    }
  }

  /** In particular the shutdown protocol works with at least one consumer, data without sentinels, and
      the unbounded queue or one of any capacity from 1 up. */
  lemma CleanDataFits(c: Client)
    requires c.n > 0 && "stop" !in c.data && c.bound != Q.Capacity(0)
    ensures Fits(c)
  {
    var all := |c.Script()|;
    StopsInPrefix(c, all - 1);
    LastIsStop(c, all - 1);
    StopFree(c.data);
    NeededPrefix(c.Script(), c.n, all - 1);
  }

  // ---------------------------------------------------------------- the program

  /** The test program over the unbounded queue, with its threads: `stages` says where each consumer is. */
  class QueueTest {
    const c: Client
    const queue: C.BlockingQueue<string>
    const latch: L.CountDownLatch
    var phase: Phase
    var stages: seq<Stage>

    ghost predicate Valid()
      reads this
    {
      |stages| == c.n && (phase.Putting? ==> phase.next <= |c.Script()|)
    }

    ghost function State(): System
      reads this, queue, latch
    {
      System(queue.State(), latch.State(), phase, stages)
    }

    constructor (n: nat, data: seq<string>)
      ensures Valid() && c == Client(Q.Unbounded, n, data) && fresh(queue) && fresh(latch)
      ensures State() == Init(c)
    {
      c := Client(Q.Unbounded, n, data);
      queue := new C.BlockingQueue<string>();
      latch := new L.CountDownLatch(n);
      phase, stages := AtLatch, seq(n, _ => Starting);
    }

    /** The next piece of `main`: `run`, then `joinAll`. */
    method MainTurn(wake: set<Tid>)
      requires Valid() && Enabled(c, State(), Main(wake))
      modifies this, queue, latch
      ensures Valid() && State() == Next(c, old(State()), Main(wake))
    {
      match phase {
      case AtLatch =>
        var returned := latch.WaitTurn(c.n);
        if returned {
          phase := Putting(0);
        }
      case Putting(k) =>
        if k < |c.Script()| {
          queue.Put(c.n, c.Script()[k], wake);
          phase := Putting(k + 1);
        } else {
          phase := Finished;
        }
      }
    }

    /** The next piece of `threadFunc` in consumer `t`. */
    method ConsumerTurn(t: Tid, ghost wake: set<Tid>)
      requires Valid() && Enabled(c, State(), Consumer(t, wake))
      modifies this, queue, latch
      ensures Valid() && State() == Next(c, old(State()), Consumer(t, wake))
    {
      if stages[t].Starting? {
        latch.CountDown();
        stages := stages[t := Looping];
      } else {
        var d := queue.TakeTurn(t);
        if d != [] && d[0] == STOP {
          stages := stages[t := Stopped];
        }
      }
    }

    /** Whether the thread that `a` names is able to make its step now. */
    method Ready(a: Action) returns (ready: bool)
      requires Valid()
      ensures ready <==> Enabled(c, State(), a)
    {
      match a {
      case Main(wake) =>
        match phase {
        case AtLatch => return c.n !in latch.waiters.asleep;
        case Putting(k) =>
          if k < |c.Script()| {
            return !queue.notEmpty.Has(c.n) && queue.notEmpty.MayWake(wake);
          }
          return forall t :: 0 <= t < |stages| ==> stages[t].Stopped?;
        case Finished => return false;
        }
      case Consumer(t, wake) =>
        if t < |stages| && stages[t].Looping? {
          return wake == {} && (t in queue.notEmpty.woken || t !in queue.notEmpty.asleep);
        }
        return t < |stages| && stages[t].Starting?;
      case RouseInQueue(t) => return t in queue.notEmpty.asleep;
      case RouseMain => return c.n in latch.waiters.asleep;
      }
    }

    /** Executes the program under a schedule. Whatever the schedule, once the joins have returned every
        consumer has had its sentinel and, if the data held none, all data have been consumed in order;
        before that the program can always be continued. */
    method Execute(schedule: seq<Action>)
      requires Valid() && State() == Init(c) && c.bound == Q.Unbounded
      modifies this, queue, latch
      ensures Valid() && State() == Run(c, Init(c), schedule)
      ensures phase.Finished? && c.n > 0 && "stop" !in c.data ==>
        queue.queue == [] && Q.Values(queue.takes) == c.data + seq(c.n, _ => "stop")
      ensures phase.Finished? || CanMove(c, State())
    {
      for i := 0 to |schedule|
        invariant Valid()
        invariant Run(c, State(), schedule[i..]) == Run(c, Init(c), schedule)
      {
        assert schedule[i..][1..] == schedule[i + 1..];
        var ready := Ready(schedule[i]);
        if ready {
          match schedule[i] {
          case Main(wake) => MainTurn(wake);
          case Consumer(t, wake) => ConsumerTurn(t, wake);
          case RouseInQueue(t) => queue.SpuriousWakeup(t);
          case RouseMain => latch.SpuriousWakeup(c.n);
          }
        }
      }
      if phase.Finished? { AllConsumedIffNoStopInData(c, schedule); }
      FittingRunGoesOn(c, schedule);
    }
  }

  lemma {:induction false} RunOneMore(c: Client, s: System, acts: seq<Action>, a: Action)
    ensures var s' := Run(c, s, acts);
      Run(c, s, acts + [a]) == if Enabled(c, s', a) then Next(c, s', a) else s'
    decreases |acts|
  {
    if acts == [] {
      assert ([a])[1..] == [];
    } else {
      assert (acts + [a])[1..] == acts[1..] + [a];
      RunOneMore(c, if Enabled(c, s, acts[0]) then Next(c, s, acts[0]) else s, acts[1..], a);
    }
  }

  lemma ReachableOk(c: Client, acts: seq<Action>)
    ensures Q.WaitersOk(Run(c, Init(c), acts).queue) && PuttersOk(c, Run(c, Init(c), acts))
  {
    InitInv(c);
    RunKeepsInv(c, Init(c), acts);
  }

  /** The same program over the bounded queue, in which the main thread may have to wait for room. */
  class BoundQueueTest {
    const c: Client
    const queue: C.BoundBlockingQueue<string>
    const latch: L.CountDownLatch
    var phase: Phase
    var stages: seq<Stage>

    ghost predicate Valid()
      reads this, queue, queue.ring
    {
      queue.Valid() && |stages| == c.n && (phase.Putting? ==> phase.next <= |c.Script()|)
    }

    ghost function State(): System
      requires queue.Valid()
      reads this, queue, queue.ring, queue.ring.data, latch
    {
      System(queue.State(), latch.State(), phase, stages)
    }

    constructor (maxSize: nat, n: nat, data: seq<string>)
      ensures Valid() && c == Client(Q.Capacity(maxSize), n, data)
      ensures fresh(queue) && fresh(queue.ring) && fresh(queue.ring.data) && fresh(latch)
      ensures State() == Init(c)
    {
      c := Client(Q.Capacity(maxSize), n, data);
      queue := new C.BoundBlockingQueue<string>(maxSize);
      latch := new L.CountDownLatch(n);
      phase, stages := AtLatch, seq(n, _ => Starting);
    }

    /** The next piece of `main`: `run`, then `joinAll`. */
    method MainTurn(wake: set<Tid>)
      requires Valid() && Enabled(c, State(), Main(wake)) && PuttersOk(c, State())
      modifies this, queue, queue.ring, queue.ring.data, latch
      ensures Valid() && State() == Next(c, old(State()), Main(wake))
    {
      match phase {
      case AtLatch =>
        var returned := latch.WaitTurn(c.n);
        if returned {
          phase := Putting(0);
        }
      case Putting(k) =>
        if k < |c.Script()| {
          PutNext(wake);
        } else {
          phase := Finished;
        }
      }
    }

    /** One turn of `put` for the next item of the script. */
    method PutNext(wake: set<Tid>)
      requires Valid() && PuttersOk(c, State()) && phase.Putting? && phase.next < |c.Script()|
      requires Q.Enabled(queue.State(), PutAction(c, State(), phase.next, wake))
      modifies this`phase, queue, queue.ring, queue.ring.data
      ensures Valid()
      ensures queue.State() == Q.Next(old(queue.State()), old(PutAction(c, State(), phase.next, wake)))
      ensures phase == if old(queue.State()).Full() then old(phase) else Putting(old(phase.next) + 1)
    {
      assert c.n in queue.notFull.woken ==> queue.State().putters.Has(c.n);
      var done := queue.PutTurn(c.n, c.Script()[phase.next], wake);
      if done {
        phase := Putting(phase.next + 1);
      }
    }

    /** The next piece of `threadFunc` in consumer `t`. */
    method ConsumerTurn(t: Tid, wake: set<Tid>)
      requires Valid() && Enabled(c, State(), Consumer(t, wake))
      modifies this, queue, queue.ring, queue.ring.data, latch
      ensures Valid() && State() == Next(c, old(State()), Consumer(t, wake))
    {
      if stages[t].Starting? {
        latch.CountDown();
        stages := stages[t := Looping];
      } else {
        var d := queue.TakeTurn(t, wake);
        if d != [] && d[0] == STOP {
          stages := stages[t := Stopped];
        }
      }
    }

    /** Whether the thread that `a` names is able to make its step now. */
    method Ready(a: Action) returns (ready: bool)
      requires Valid() && Q.WaitersOk(queue.State())
      ensures ready <==> Enabled(c, State(), a)
    {
      match a {
      case Main(wake) =>
        match phase {
        case AtLatch => return c.n !in latch.waiters.asleep;
        case Putting(k) =>
          if k < |c.Script()| {
            return (c.n in queue.notFull.woken || (!queue.notEmpty.Has(c.n) && c.n !in queue.notFull.asleep))
                   && queue.notEmpty.MayWake(wake);
          }
          return forall t :: 0 <= t < |stages| ==> stages[t].Stopped?;
        case Finished => return false;
        }
      case Consumer(t, wake) =>
        if t < |stages| && stages[t].Looping? {
          return (t in queue.notEmpty.woken || (t !in queue.notEmpty.asleep && !queue.notFull.Has(t)))
                 && queue.notFull.MayWake(wake);
        }
        return t < |stages| && stages[t].Starting?;
      case RouseInQueue(t) => return t in queue.notEmpty.asleep || t in queue.notFull.asleep;
      case RouseMain => return c.n in latch.waiters.asleep;
      }
    }

    method Perform(a: Action)
      requires Valid() && Enabled(c, State(), a) && PuttersOk(c, State())
      modifies this, queue, queue.ring, queue.ring.data, latch
      ensures Valid() && State() == Next(c, old(State()), a)
    {
      match a {
      case Main(wake) => MainTurn(wake);
      case Consumer(t, wake) => ConsumerTurn(t, wake);
      case RouseInQueue(t) => queue.SpuriousWakeup(t);
      case RouseMain => latch.SpuriousWakeup(c.n);
      }
    }

    /** Offers one action of the schedule, after those in `past`. */
    method Turn(ghost past: seq<Action>, a: Action)
      requires Valid() && State() == Run(c, Init(c), past)
      modifies this, queue, queue.ring, queue.ring.data, latch
      ensures Valid() && State() == Run(c, Init(c), past + [a])
    {
      ReachableOk(c, past);
      RunOneMore(c, Init(c), past, a);
      var ready := Ready(a);
      if ready {
        Perform(a);
      }
    }

    /** Executes the program under a schedule. A client that does not fit never finishes; one that fits has
        either finished, with all clean data consumed in order, or can be continued. */
    method Execute(schedule: seq<Action>)
      requires Valid() && State() == Init(c)
      modifies this, queue, queue.ring, queue.ring.data, latch
      ensures Valid() && State() == Run(c, Init(c), schedule)
      ensures phase.Finished? && c.n > 0 && "stop" !in c.data ==>
        State().queue.items == [] && Received(State()) == c.data + seq(c.n, _ => "stop")
      ensures Fits(c) ==> phase.Finished? || CanMove(c, State())
      ensures !Fits(c) ==> !phase.Finished?
    {
      for i := 0 to |schedule|
        invariant Valid() && State() == Run(c, Init(c), schedule[..i])
      {
        assert schedule[..i + 1] == schedule[..i] + [schedule[i]];
        Turn(schedule[..i], schedule[i]);
      }
      assert schedule[..|schedule|] == schedule;
      if phase.Finished? { AllConsumedIffNoStopInData(c, schedule); }
      if Fits(c) { FittingRunGoesOn(c, schedule); } else { OverfullRunNeverFinishes(c, schedule); }
    }
  }
}
