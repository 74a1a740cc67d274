/**
 `ThreadPool`: `run`, `take`, `runInThread`, `start` and `stop` as atomic steps. A step is one stretch
 from lock or wake-up to wait or unlock, one unlocked read of `running_`, or the beginning or the end
 of one task. Worker `w` is the thread at index `w` of `threads_`.
*/
module ThreadPools {
  import opened Conditions
  import opened Sequences

  /** `Empty` is an empty `boost::function`; `throws` says that the call ends in a `std::exception`. */
  datatype Task = Empty | Call(job: nat, throws: bool)

  /** A worker's place in `runInThread`. The ticket of a task is its position among the dequeued ones. */
  datatype Pc =
    | AtLoop                              // about to read running_
    | AtTake                              // about to lock the mutex in take
    | InWait                              // in cond_.wait
    | Hold(ticket: nat, task: Task)       // take returned the task
    | Busy(ticket: nat, task: Task)       // inside task()
    | Exited
  {
    predicate Has(i: nat) { (Hold? || Busy?) && ticket == i }
  }

  /** `submitted`, `taken`, `takenBy`, `began`, `ended` and `inline` (the tasks that `run` executed in
      its caller) are history. `starting` counts the threads that `start` has still to create. */
  datatype Pool = Pool(
    running: bool, starting: nat, workers: seq<Pc>, waiters: Waiters, queue: seq<Task>,
    submitted: seq<Task>, taken: seq<Task>, takenBy: seq<Tid>,
    began: seq<nat>, ended: seq<nat>, inline: seq<Task>)
  {
    predicate Live(w: nat) { w < |workers| && !workers[w].Exited? }
  }

  datatype Action =
    | Start(n: nat) | Spawn | Stop
    | Submit(task: Task, wake: set<Tid>) | RunInline(task: Task)
    | LoopTest(w: nat) | Take(w: nat) | Begin(w: nat) | End(w: nat)
    | Rouse(w: nat)

  const Init := Pool(false, 0, [], NoWaiters, [], [], [], [], [], [], [])

  predicate Enabled(s: Pool, a: Action) {
    match a
    case Start(n) => s.workers == [] && s.starting == 0
    case Spawn => s.starting > 0
    case Stop => true
    case Submit(_, wake) => s.workers != [] && s.waiters.MayWake(wake)
    case RunInline(_) => s.workers == []
    case LoopTest(w) => w < |s.workers| && s.workers[w].AtLoop?
    case Take(w) => w < |s.workers| && (s.workers[w].AtTake? || (s.workers[w].InWait? && w in s.waiters.woken))
    case Begin(w) => w < |s.workers| && s.workers[w].Hold?
    case End(w) => w < |s.workers| && s.workers[w].Busy?
    case Rouse(w) => w in s.waiters.asleep
  }

  /** One turn of the loop in `take`, with the test of the returned task in `runInThread`. */
  function TakeTurn(s: Pool, w: nat): Pool
    requires w < |s.workers|
  {
    if s.queue != [] then
      var task := s.queue[0];
      s.(queue := s.queue[1..], taken := s.taken + [task], takenBy := s.takenBy + [w],
         workers := s.workers[w := if task.Call? then Hold(|s.taken|, task) else AtLoop])
    else if s.running then
      s.(waiters := s.waiters.Sleep(w), workers := s.workers[w := InWait])
    else
      s.(workers := s.workers[w := AtLoop])
  }

  function Next(s: Pool, a: Action): Pool
    requires Enabled(s, a)
  {
    match a
    case Start(n) => s.(running := true, starting := n)
    case Spawn => s.(starting := s.starting - 1, workers := s.workers + [AtLoop])
    case Stop => s.(running := false, waiters := s.waiters.NotifyAll())
    case Submit(task, wake) =>
      s.(queue := s.queue + [task], submitted := s.submitted + [task], waiters := s.waiters.Notify(wake))
    case RunInline(task) => s.(inline := s.inline + [task])
    case LoopTest(w) => s.(workers := s.workers[w := if s.running then AtTake else Exited])
    case Take(w) => TakeTurn(s.(waiters := s.waiters.Resume(w)), w)
    case Begin(w) =>
      var pc := s.workers[w];
      s.(workers := s.workers[w := Busy(pc.ticket, pc.task)], began := s.began + [pc.ticket])
    case End(w) =>
      var pc := s.workers[w];
      s.(workers := s.workers[w := if pc.task.Call? && pc.task.throws then Exited else AtLoop],
         ended := s.ended + [pc.ticket])
    case Rouse(w) => s.(waiters := s.waiters.Rouse(w))
  }

  /** A run picks any action at each point; picking a disabled one changes nothing. */
  function Run(s: Pool, acts: seq<Action>): Pool
    decreases |acts|
  {
    if acts == [] then s
    else Run(if Enabled(s, acts[0]) then Next(s, acts[0]) else s, acts[1..])
  }

  /** The actions of a run that were really executed. */
  function Executed(s: Pool, acts: seq<Action>): seq<Action>
    decreases |acts|
  {
    if acts == [] then []
    else if Enabled(s, acts[0]) then [acts[0]] + Executed(Next(s, acts[0]), acts[1..])
    else Executed(s, acts[1..])
  }

  /** The tasks given to `run` while there were threads, and while there were none. */
  function Submitted(acts: seq<Action>): seq<Task> {
    if acts == [] then [] else (if acts[0].Submit? then [acts[0].task] else []) + Submitted(acts[1..])
  }

  function Inlined(acts: seq<Action>): seq<Task> {
    if acts == [] then [] else (if acts[0].RunInline? then [acts[0].task] else []) + Inlined(acts[1..])
  }

  function IsBegin(a: Action): int { if a.Begin? then 1 else 0 }
  function IsEnd(a: Action): int { if a.End? then 1 else 0 }

  // ---------------------------------------------------------------- invariants

  ghost predicate WaitersOk(s: Pool) {
    && s.waiters.Valid()
    && (forall w :: w in s.waiters.asleep ==> w < |s.workers| && s.workers[w].InWait?)
    && (forall w :: w in s.waiters.woken ==> w < |s.workers| && s.workers[w].InWait?)
    && (forall w :: 0 <= w < |s.workers| && s.workers[w].InWait? ==> s.waiters.Has(w))
  }

  /** No lost wake-up. */
  ghost predicate WakeupsOk(s: Pool) {
    && s.waiters.Covers(|s.queue|)
    && (s.waiters.asleep != {} ==> s.running)
  }

  ghost predicate Fifo(s: Pool) { s.submitted == s.taken + s.queue }

  /** The record of takers is complete. */
  ghost predicate TakersOk(s: Pool) {
    && |s.takenBy| == |s.taken|
    && (forall i :: 0 <= i < |s.takenBy| ==> s.takenBy[i] < |s.workers|)
  }

  /** Worker `w` holds the task that its ticket names, and took it itself. */
  predicate HandOk(s: Pool, w: nat) {
    w < |s.workers| && (s.workers[w].Hold? || s.workers[w].Busy?) ==>
      var i := s.workers[w].ticket;
      i < |s.taken| && s.taken[i] == s.workers[w].task && s.taken[i].Call? && i < |s.takenBy| && s.takenBy[i] == w
  }

  ghost predicate HandsOk(s: Pool) { TakersOk(s) && forall w {:trigger s.workers[w]} :: 0 <= w < |s.workers| ==> HandOk(s, w) }

  /** Tasks begin and end at most once, and only dequeued ones. */
  ghost predicate HistoryOk(s: Pool) {
    && Distinct(s.began) && Distinct(s.ended)
    && (forall i :: i in s.ended ==> i in s.began)
    && (forall i :: i in s.began ==> i < |s.taken| && s.taken[i].Call?)
  }

  /** A worker's stage agrees with the history of its task. */
  ghost predicate StagesOk(s: Pool) {
    && (forall w :: 0 <= w < |s.workers| && s.workers[w].Hold? ==> s.workers[w].ticket !in s.began)
    && (forall w :: 0 <= w < |s.workers| && s.workers[w].Busy? ==>
          s.workers[w].ticket in s.began && s.workers[w].ticket !in s.ended)
  }

  ghost predicate OnceOk(s: Pool) { HistoryOk(s) && StagesOk(s) }

  /** Task number `i` is in the hands of the worker that dequeued it. */
  predicate InHands(s: Pool, i: nat) {
    i < |s.takenBy| && s.takenBy[i] < |s.workers| && s.workers[s.takenBy[i]].Has(i)
  }

  ghost predicate NoneLost(s: Pool) {
    forall i :: 0 <= i < |s.taken| && s.taken[i].Call? && i !in s.ended ==> InHands(s, i)
  }

  function Throws(task: Task): int { if task.Call? && task.throws then 1 else 0 }

  /** The worker is gone, or will be once its task is over. */
  function Doomed(pc: Pc): int {
    if pc.Exited? then 1 else if pc.Hold? || pc.Busy? then Throws(pc.task) else 0
  }

  /** Every dequeued task that throws costs one worker; while the pool runs nothing else does. */
  ghost predicate LossesOk(s: Pool) {
    && Total(Throws, s.taken) <= Total(Doomed, s.workers)
    && (s.running ==> Total(Throws, s.taken) == Total(Doomed, s.workers))
    && (s.workers == [] ==> s.taken == [])
  }

  ghost predicate Inv(s: Pool) {
    WaitersOk(s) && WakeupsOk(s) && Fifo(s) && HandsOk(s) && OnceOk(s) && NoneLost(s) && LossesOk(s)
  }

  lemma StepKeepsWaiters(s: Pool, a: Action)
    requires WaitersOk(s) && Enabled(s, a)
    ensures WaitersOk(Next(s, a))
  {
  }

  lemma StepKeepsWakeups(s: Pool, a: Action)
    requires WaitersOk(s) && WakeupsOk(s) && Enabled(s, a)
    ensures WakeupsOk(Next(s, a))
  {
    match a
    case Submit(_, wake) => s.waiters.NotifyCovers(|s.queue|, wake);
    case Take(w) => if w in s.waiters.woken { s.waiters.ResumeCovers(|s.queue|, w); }
    case Rouse(w) => s.waiters.RouseCovers(|s.queue|, w);
    case _ =>
  }

  lemma StepKeepsFifo(s: Pool, a: Action)
    requires Fifo(s) && Enabled(s, a)
    ensures Fifo(Next(s, a))
  {
  }

  lemma StepKeepsHands(s: Pool, a: Action)
    requires HandsOk(s) && Enabled(s, a)
    ensures HandsOk(Next(s, a))
  {
    var s' := Next(s, a);
    forall w | 0 <= w < |s'.workers| ensures HandOk(s', w) {
      assert w < |s.workers| ==> HandOk(s, w);
    }
  }

  lemma StepKeepsHistory(s: Pool, a: Action)
    requires HandsOk(s) && OnceOk(s) && Enabled(s, a)
    ensures HistoryOk(Next(s, a))
  {
  }

  lemma StepKeepsStages(s: Pool, a: Action)
    requires HandsOk(s) && OnceOk(s) && Enabled(s, a)
    ensures StagesOk(Next(s, a))
  {
    var s' := Next(s, a);
    assert s.began <= s'.began && s.ended <= s'.ended;
    if a.Begin? { assert s'.began[|s.began|] == s.workers[a.w].ticket; }
  }

  lemma StepKeepsNoneLost(s: Pool, a: Action)
    requires HandsOk(s) && NoneLost(s) && Enabled(s, a)
    ensures NoneLost(Next(s, a))
  {
    var s' := Next(s, a);
    forall i | 0 <= i < |s'.taken| && s'.taken[i].Call? && i !in s'.ended
      ensures InHands(s', i)
    {
      if i < |s.taken| {
        assert s.ended <= s'.ended;
        assert InHands(s, i);
        if a.End? { assert s'.ended[|s.ended|] != i; }
      }
    }
  }

  lemma StepKeepsLosses(s: Pool, a: Action)
    requires LossesOk(s) && Enabled(s, a)
    ensures LossesOk(Next(s, a))
  {
    var s' := Next(s, a);
    match a
    case Spawn => TotalAppend(Doomed, s.workers, AtLoop);
    case Take(w) =>
      TotalUpdate(Doomed, s.workers, w, s'.workers[w]);
      if s.queue != [] { TotalAppend(Throws, s.taken, s.queue[0]); }
    case LoopTest(w) => TotalUpdate(Doomed, s.workers, w, s'.workers[w]);
    case Begin(w) => TotalUpdate(Doomed, s.workers, w, s'.workers[w]);
    case End(w) => TotalUpdate(Doomed, s.workers, w, s'.workers[w]);
    case _ =>
  }

  lemma StepKeepsInv(s: Pool, a: Action)
    requires Inv(s) && Enabled(s, a)
    ensures Inv(Next(s, a))
  {
    StepKeepsWaiters(s, a);
    StepKeepsWakeups(s, a);
    StepKeepsFifo(s, a);
    StepKeepsHands(s, a);
    StepKeepsHistory(s, a);
    StepKeepsStages(s, a);
    StepKeepsNoneLost(s, a);
    StepKeepsLosses(s, a);
  }

  lemma InitInv()
    ensures Inv(Init)
  {
    assert Init.taken == [] && Init.workers == [];
  }

  lemma {:induction false} RunKeepsInv(s: Pool, acts: seq<Action>)
    requires Inv(s)
    ensures Inv(Run(s, acts))
    decreases |acts|
  {
    if acts == [] {
    } else {
      if Enabled(s, acts[0]) { StepKeepsInv(s, acts[0]); }
      RunKeepsInv(if Enabled(s, acts[0]) then Next(s, acts[0]) else s, acts[1..]);
    }
  }

  // ---------------------------------------------------------------- main results

  lemma SomebodyAwake(s: Pool, w: nat) returns (u: nat)
    requires WaitersOk(s) && WakeupsOk(s) && s.queue != [] && s.Live(w)
    ensures s.Live(u) && u !in s.waiters.asleep
  {
    if w in s.waiters.asleep {
      u :| u in s.waiters.woken;
    } else {
      u := w;
    }
  }

  /** A worker sleeps un-notified only while the pool runs and the workers already woken are enough
      for the queue; so with tasks queued the live workers are never all asleep un-notified. */
  lemma NoLostWakeup(acts: seq<Action>)
    ensures var s := Run(Init, acts);
      && (s.waiters.asleep != {} ==> s.running && |s.queue| <= |s.waiters.woken|)
      && (s.queue != [] && (exists w :: s.Live(w)) ==> exists w :: s.Live(w) && w !in s.waiters.asleep)
  {
    RunKeepsInv(Init, acts);
    var s := Run(Init, acts);
    if s.queue != [] && (exists w :: s.Live(w)) {
      var w :| s.Live(w);
      var u := SomebodyAwake(s, w);
    }
  }

  /** The submitted tasks are the dequeued ones followed by the queue, in order; a dequeued non-empty
      task is in the hands of exactly one worker, its taker, until it is over; and it begins and ends
      (returning or throwing) at most once. */
  ghost predicate Conserved(s: Pool) {
    && s.submitted == s.taken + s.queue
    && Distinct(s.began) && Distinct(s.ended)
    && (forall i :: i in s.ended ==> i in s.began)
    && (forall i :: i in s.began ==> i < |s.taken| && s.taken[i].Call?)
    && (forall i :: 0 <= i < |s.taken| && s.taken[i].Call? ==> (i in s.ended <==> !InHands(s, i)))
    && (forall w, i :: 0 <= w < |s.workers| && 0 <= i < |s.taken| && s.workers[w].Has(i) ==>
          i < |s.takenBy| && w == s.takenBy[i])
  }

  lemma OverMeansOutOfHands(s: Pool, i: nat)
    requires HandsOk(s) && StagesOk(s) && HistoryOk(s) && i in s.ended
    ensures !InHands(s, i)
  {
    assert i in s.began;
  }

  lemma InvMeansConserved(s: Pool)
    requires Fifo(s) && HandsOk(s) && OnceOk(s) && NoneLost(s)
    ensures Conserved(s)
  {
    forall i | 0 <= i < |s.taken| && s.taken[i].Call? ensures i in s.ended <==> !InHands(s, i) {
      if i in s.ended { OverMeansOutOfHands(s, i); }
    }
  }

  lemma StepRecordsTask(s: Pool, a: Action)
    requires Enabled(s, a)
    ensures Next(s, a).submitted == if a.Submit? then s.submitted + [a.task] else s.submitted
    ensures Next(s, a).inline == if a.RunInline? then s.inline + [a.task] else s.inline
  {
  }

  lemma {:induction false} RunRecordsSubmitted(s: Pool, acts: seq<Action>)
    ensures Run(s, acts).submitted == s.submitted + Submitted(Executed(s, acts))
    decreases |acts|
  {
    if acts == [] {
    } else if Enabled(s, acts[0]) {
      StepRecordsTask(s, acts[0]);
      RunRecordsSubmitted(Next(s, acts[0]), acts[1..]);
      assert Executed(s, acts)[1..] == Executed(Next(s, acts[0]), acts[1..]);
    } else {
      RunRecordsSubmitted(s, acts[1..]);
    }
  }

  lemma {:induction false} RunRecordsInline(s: Pool, acts: seq<Action>)
    ensures Run(s, acts).inline == s.inline + Inlined(Executed(s, acts))
    decreases |acts|
  {
    if acts == [] {
    } else if Enabled(s, acts[0]) {
      StepRecordsTask(s, acts[0]);
      RunRecordsInline(Next(s, acts[0]), acts[1..]);
      assert Executed(s, acts)[1..] == Executed(Next(s, acts[0]), acts[1..]);
    } else {
      RunRecordsInline(s, acts[1..]);
    }
  }

  lemma {:induction false} RunRecordsWork(s: Pool, acts: seq<Action>)
    ensures var s' := Run(s, acts); var done := Executed(s, acts);
      && |s'.began| == |s.began| + Total(IsBegin, done) && |s'.ended| == |s.ended| + Total(IsEnd, done)
    decreases |acts|
  {
    if acts == [] {
    } else if Enabled(s, acts[0]) {
      RunRecordsWork(Next(s, acts[0]), acts[1..]);
      assert Executed(s, acts)[1..] == Executed(Next(s, acts[0]), acts[1..]);
    } else {
      RunRecordsWork(s, acts[1..]);
    }
  }

  /** Conservation holds in every reachable state, tasks that throw and tasks left in the queue after
      `stop` included; and the tasks it speaks of are those that the run really submitted, executed in
      their caller, began and ended. */
  lemma TasksAreConserved(acts: seq<Action>)
    ensures var s := Run(Init, acts); var done := Executed(Init, acts);
      && Conserved(s)
      && Submitted(done) == s.taken + s.queue && Inlined(done) == s.inline
      && Total(IsBegin, done) == |s.began| && Total(IsEnd, done) == |s.ended|
  {
    var s := Run(Init, acts);
    assert Fifo(s) && Conserved(s) by {
      RunKeepsInv(Init, acts);
      InvMeansConserved(s);
    }
    RunRecordsSubmitted(Init, acts);
    RunRecordsInline(Init, acts);
    RunRecordsWork(Init, acts);
  }

  /** In every run, each dequeued throwing task costs exactly one worker while the pool runs (after
      `stop` workers may also leave by themselves), so a pool never dequeues more throwing tasks than
      it has workers. */
  lemma LossesAreExact(acts: seq<Action>)
    ensures var s := Run(Init, acts);
      && Total(Throws, s.taken) <= Total(Doomed, s.workers) <= |s.workers|
      && (s.running ==> Total(Throws, s.taken) == Total(Doomed, s.workers))
  {
    var s := Run(Init, acts);
    assert Inv(s) by { RunKeepsInv(Init, acts); }
    assert LossesOk(s);
    TotalAtMost(Doomed, s.workers, 1);
  }

  // ---------------------------------------------------------------- shutdown

  predicate Stopped(s: Pool) { !s.running && s.workers != [] }

  predicate IsWorkerStep(a: Action) { a.LoopTest? || a.Take? || a.Begin? || a.End? }

  /** The most steps a worker can still make after `stop` has left its critical section. */
  function StepsLeft(pc: Pc): int {
    match pc
    case AtLoop => 1
    case AtTake => 4
    case InWait => 4
    case Hold(_, _) => 3
    case Busy(_, _) => 2
    case Exited => 0
  }

  function ShutdownRank(s: Pool): int { Total(StepsLeft, s.workers) + s.starting }

  lemma StoppedStep(s: Pool, a: Action)
    requires Inv(s) && Stopped(s) && Enabled(s, a)
    ensures Stopped(Next(s, a))
    ensures ShutdownRank(Next(s, a)) <= ShutdownRank(s) - if IsWorkerStep(a) then 1 else 0
  {
    var s' := Next(s, a);
    match a
    case Spawn => TotalAppend(StepsLeft, s.workers, AtLoop);
    case LoopTest(w) => TotalUpdate(StepsLeft, s.workers, w, s'.workers[w]);
    case Take(w) => TotalUpdate(StepsLeft, s.workers, w, s'.workers[w]);
    case Begin(w) => TotalUpdate(StepsLeft, s.workers, w, s'.workers[w]);
    case End(w) => TotalUpdate(StepsLeft, s.workers, w, s'.workers[w]);
    case _ =>
  }

  /** The steps of a run that workers really made. */
  function WorkerSteps(s: Pool, acts: seq<Action>): nat
    decreases |acts|
  {
    if acts == [] then 0
    else if Enabled(s, acts[0]) then
      (if IsWorkerStep(acts[0]) then 1 else 0) + WorkerSteps(Next(s, acts[0]), acts[1..])
    else WorkerSteps(s, acts[1..])
  }

  /** How many tasks worker `w` dequeued, and how many more it can once the pool is stopped. */
  function Dequeues(s: Pool, w: Tid): int { Total((t: Tid) => if t == w then 1 else 0, s.takenBy) }

  function MayDequeue(s: Pool, w: Tid): int {
    if w < |s.workers| && (s.workers[w].AtTake? || s.workers[w].InWait?) then 1 else 0
  }

  lemma StoppedStepDequeues(s: Pool, a: Action, w: Tid)
    requires Stopped(s) && Enabled(s, a)
    ensures Dequeues(Next(s, a), w) + MayDequeue(Next(s, a), w) <= Dequeues(s, w) + MayDequeue(s, w)
  {
    if a.Take? && s.queue != [] {
      TotalAppend((t: Tid) => if t == w then 1 else 0, s.takenBy, a.w);
    }
  }

  /** The step that worker `w` makes next. */
  function StepOf(s: Pool, w: nat): Action
    requires s.Live(w)
  {
    match s.workers[w]
    case AtLoop => LoopTest(w)
    case AtTake => Take(w)
    case InWait => Take(w)
    case Hold(_, _) => Begin(w)
    case _ => End(w)
  }

  lemma {:induction false} StoppedRun(s: Pool, acts: seq<Action>)
    requires Inv(s) && Stopped(s)
    ensures Inv(Run(s, acts)) && Stopped(Run(s, acts))
    ensures WorkerSteps(s, acts) + ShutdownRank(Run(s, acts)) <= ShutdownRank(s)
    decreases |acts|
  {
    if acts == [] {
    } else {
      if Enabled(s, acts[0]) {
        StepKeepsInv(s, acts[0]);
        StoppedStep(s, acts[0]);
        StoppedRun(Next(s, acts[0]), acts[1..]);
      } else {
        StoppedRun(s, acts[1..]);
      }
    }
  }

  lemma {:induction false} StoppedRunDequeues(s: Pool, acts: seq<Action>, w: Tid)
    requires Inv(s) && Stopped(s)
    ensures Dequeues(Run(s, acts), w) + MayDequeue(Run(s, acts), w) <= Dequeues(s, w) + MayDequeue(s, w)
    decreases |acts|
  {
    if acts == [] {
    } else {
      if Enabled(s, acts[0]) {
        StepKeepsInv(s, acts[0]);
        StoppedStep(s, acts[0]);
        StoppedStepDequeues(s, acts[0], w);
        StoppedRunDequeues(Next(s, acts[0]), acts[1..], w);
      } else {
        StoppedRunDequeues(s, acts[1..], w);
      }
    }
  }

  lemma StoppedState(s: Pool)
    requires Inv(s) && Stopped(s)
    ensures s.waiters.asleep == {}
    ensures 0 <= ShutdownRank(s) <= 4 * (|s.workers| + s.starting)
    ensures forall w: nat :: s.Live(w) ==> Enabled(s, StepOf(s, w))
  {
    TotalAtMost(StepsLeft, s.workers, 4);
    TotalAtLeast(StepsLeft, s.workers, 0);
    forall w: nat | s.Live(w) ensures Enabled(s, StepOf(s, w)) {
      assert s.workers[w].InWait? ==> s.waiters.Has(w);
    }
  }

  /** What holds at the end of a run `after` that starts in the stopped state `s`. */
  ghost predicate ShutdownOk(s: Pool, after: seq<Action>, s': Pool) {
    && s'.waiters.asleep == {} && !s'.running
    && WorkerSteps(s, after) <= 4 * (|s.workers| + s.starting)
    && (forall w :: Dequeues(s', w) <= Dequeues(s, w) + 1)
    && (forall w: nat :: s'.Live(w) ==> Enabled(s', StepOf(s', w)))
  }

  lemma ShutdownFrom(s: Pool, after: seq<Action>)
    requires Inv(s) && Stopped(s)
    ensures ShutdownOk(s, after, Run(s, after))
  {
    StoppedRun(s, after);
    StoppedState(s);
    StoppedState(Run(s, after));
    forall w ensures Dequeues(Run(s, after), w) <= Dequeues(s, w) + 1 {
      StoppedRunDequeues(s, after, w);
    }
  }

  /** Shutdown completes. Take any run, then `stop`, then any further run: no worker sleeps
      un-notified again, the workers make at most four steps per thread in all however many tasks are
      queued, each dequeues at most one more task, and every worker that is still alive can move; so
      once they have stopped moving all have exited and the joins return. */
  lemma ShutdownCompletes(before: seq<Action>, after: seq<Action>)
    requires Run(Init, before).workers != []
    ensures var s := Next(Run(Init, before), Stop); ShutdownOk(s, after, Run(s, after))
  {
    RunKeepsInv(Init, before);
    StepKeepsInv(Run(Init, before), Stop);
    ShutdownFrom(Next(Run(Init, before), Stop), after);
  }

  /** The worker is past the test of `running_` and will still look into the queue. */
  function IsTaking(pc: Pc): int { if pc.AtTake? || pc.InWait? then 1 else 0 }

  function Min(a: int, b: int): int { if a < b then a else b }

  /** The tasks that will still be dequeued if nobody submits any more. */
  function StillToTake(s: Pool): int { Min(|s.queue|, Total(IsTaking, s.workers)) }

  lemma StoppedStepTakes(s: Pool, a: Action)
    requires Stopped(s) && Enabled(s, a) && !a.Submit?
    ensures |Next(s, a).taken| + StillToTake(Next(s, a)) == |s.taken| + StillToTake(s)
  {
    var s' := Next(s, a);
    TotalAtLeast(IsTaking, s'.workers, 0);
    match a
    case Spawn => TotalAppend(IsTaking, s.workers, AtLoop);
    case LoopTest(w) => TotalUpdate(IsTaking, s.workers, w, s'.workers[w]);
    case Take(w) => TotalUpdate(IsTaking, s.workers, w, s'.workers[w]);
    case Begin(w) => TotalUpdate(IsTaking, s.workers, w, s'.workers[w]);
    case End(w) => TotalUpdate(IsTaking, s.workers, w, s'.workers[w]);
    case _ =>
  }

  lemma {:induction false} StoppedRunTakes(s: Pool, acts: seq<Action>)
    requires Inv(s) && Stopped(s) && Submitted(Executed(s, acts)) == []
    ensures |Run(s, acts).taken| + StillToTake(Run(s, acts)) == |s.taken| + StillToTake(s)
    decreases |acts|
  {
    if acts == [] {
    } else if Enabled(s, acts[0]) {
      StepKeepsInv(s, acts[0]);
      StoppedStep(s, acts[0]);
      assert Executed(s, acts)[1..] == Executed(Next(s, acts[0]), acts[1..]);
      StoppedStepTakes(s, acts[0]);
      StoppedRunTakes(Next(s, acts[0]), acts[1..]);
    } else {
      StoppedRunTakes(s, acts[1..]);
    }
  }

  lemma AllGone(s: Pool)
    requires Inv(s) && forall w :: 0 <= w < |s.workers| ==> s.workers[w].Exited?
    ensures Total(IsTaking, s.workers) == 0
    ensures forall i :: 0 <= i < |s.taken| && s.taken[i].Call? ==> i in s.ended
  {
    TotalAtLeast(IsTaking, s.workers, 0);
    TotalAtMost(IsTaking, s.workers, 0);
    InvMeansConserved(s);
  }

  lemma DrainedFrom(s: Pool, after: seq<Action>)
    requires Inv(s) && Stopped(s) && Submitted(Executed(s, after)) == []
    requires forall w :: 0 <= w < |Run(s, after).workers| ==> Run(s, after).workers[w].Exited?
    ensures var s' := Run(s, after); var k := Min(|s.queue|, Total(IsTaking, s.workers));
      && 0 <= k <= |s.queue|
      && s'.taken == s.taken + s.queue[..k] && s'.queue == s.queue[k..]
      && forall i :: 0 <= i < |s'.taken| && s'.taken[i].Call? ==> i in s'.ended
  {
    var s' := Run(s, after);
    TotalAtLeast(IsTaking, s.workers, 0);
    StoppedRun(s, after);
    StoppedRunTakes(s, after);
    AllGone(s');
    RunRecordsSubmitted(s, after);
    assert s'.taken + s'.queue == s.taken + s.queue;
    SplitAlike(s'.taken, s'.queue, s.taken, s.queue);
  }

  lemma SplitAlike(a: seq<Task>, b: seq<Task>, c: seq<Task>, d: seq<Task>)
    requires a + b == c + d && |c| <= |a|
    ensures var k := |a| - |c|; k <= |d| && a == c + d[..k] && b == d[k..]
  {
    var k := |a| - |c|;
    assert |a| + |b| == |c| + |d|;
    assert a == (a + b)[..|a|] && b == (a + b)[|a|..];
    assert (c + d)[..|a|] == c + d[..k] && (c + d)[|a|..] == d[k..];
  }

  /** What `stop` leaves undone, exactly. Take any run, then `stop`, then any further run without
      submissions at whose end all workers have exited: each worker that had passed the test of `running_`
      before, waiting or not, has dequeued one more task as long as there were any; these are the first of
      the queue, all of them are over, and the rest stay in the queue. */
  lemma StopDrainsExactly(before: seq<Action>, after: seq<Action>)
    requires Run(Init, before).workers != []
    requires var s := Next(Run(Init, before), Stop);
      && Submitted(Executed(s, after)) == []
      && forall w :: 0 <= w < |Run(s, after).workers| ==> Run(s, after).workers[w].Exited?
    ensures var s := Next(Run(Init, before), Stop); var s' := Run(s, after);
      var k := Min(|s.queue|, Total(IsTaking, s.workers));
      && 0 <= k <= |s.queue|
      && s'.taken == s.taken + s.queue[..k] && s'.queue == s.queue[k..]
      && forall i :: 0 <= i < |s'.taken| && s'.taken[i].Call? ==> i in s'.ended
  {
    RunKeepsInv(Init, before);
    StepKeepsInv(Run(Init, before), Stop);
    DrainedFrom(Next(Run(Init, before), Stop), after);
  }

  // ---------------------------------------------------------------- the class

  /** `workers` records where the threads in `threads_` are; their number is real. */
  class ThreadPool {
    var running: bool
    var threads: nat
    var waiters: Waiters
    var queue: seq<Task>
    ghost var starting: nat
    ghost var workers: seq<Pc>
    ghost var submitted: seq<Task>
    ghost var taken: seq<Task>
    ghost var takenBy: seq<Tid>
    ghost var began: seq<nat>
    ghost var ended: seq<nat>
    ghost var inline: seq<Task>

    ghost predicate Valid()
      reads this
    {
      |workers| == threads
    }

    ghost function State(): Pool
      reads this
    {
      Pool(running, starting, workers, waiters, queue, submitted, taken, takenBy, began, ended, inline)
    }

    constructor ()
      ensures Valid() && State() == Init
    {
      running, threads, waiters, queue, starting := false, 0, NoWaiters, [], 0;
      workers, submitted, taken, takenBy, began, ended, inline := [], [], [], [], [], [], [];
    }

    /** The first part of `start`; `Spawn` is one turn of its loop. */
    method Start(n: nat)
      requires Valid() && threads == 0 && starting == 0
      modifies this`running, this`starting
      ensures Valid() && State() == Next(old(State()), Action.Start(n))
      ensures running && starting == n
    {
      running, starting := true, n;
    }

    method Spawn()
      requires Valid() && starting > 0
      modifies this`threads, this`starting, this`workers
      ensures Valid() && State() == Next(old(State()), Action.Spawn)
      ensures threads == old(threads) + 1 && starting == old(starting) - 1 && workers == old(workers) + [AtLoop]
    {
      threads, starting, workers := threads + 1, starting - 1, workers + [AtLoop];
    }

    /** `stop` up to the joins. */
    method Stop()
      requires Valid()
      modifies this`running, this`waiters
      ensures Valid() && State() == Next(old(State()), Action.Stop)
      ensures !running && waiters == Waiters({}, old(waiters.woken + waiters.asleep))
    {
      running := false;
      waiters := waiters.NotifyAll();
    }

    /** `run`: with no threads the caller executes the task. */
    method Submit(task: Task, wake: set<Tid>) returns (queued: bool)
      requires Valid() && waiters.MayWake(wake)
      modifies this`queue, this`waiters, this`submitted, this`inline
      ensures Valid() && (queued <==> threads > 0)
      ensures queued ==>
        && queue == old(queue) + [task] && submitted == old(submitted) + [task] && inline == old(inline)
        && waiters == Waiters(old(waiters.asleep) - wake, old(waiters.woken) + wake)
      ensures !queued ==>
        && inline == old(inline) + [task] && queue == old(queue) && submitted == old(submitted)
        && waiters == old(waiters)
      ensures State() == Next(old(State()), if queued then Action.Submit(task, wake) else Action.RunInline(task))
    {
      if threads == 0 {
        inline := inline + [task];
        return false;
      }
      queue, submitted := queue + [task], submitted + [task];
      waiters := waiters.Notify(wake);
      return true;
    }

    /** One turn of the loop in `take`: the thread sleeps, or `take` returns a possibly empty task. */
    method TakeTurn(w: nat) returns (slept: bool, task: Task)
      requires Valid() && w < |workers|
      requires workers[w].AtTake? || (workers[w].InWait? && w in waiters.woken)
      modifies this`waiters, this`workers, this`queue, this`taken, this`takenBy
      ensures Valid() && State() == Next(old(State()), Action.Take(w))
      ensures slept <==> old(queue) == [] && running
      ensures task == if old(queue) == [] then Empty else old(queue)[0]
      ensures waiters == Waiters(old(waiters.asleep) + (if slept then {w} else {}), old(waiters.woken) - {w})
      ensures old(queue) != [] ==>
        && [task] + queue == old(queue) && taken == old(taken) + [task] && takenBy == old(takenBy) + [w]
        && workers == old(workers)[w := if task.Call? then Hold(|old(taken)|, task) else AtLoop]
      ensures old(queue) == [] ==>
        && queue == [] && taken == old(taken) && takenBy == old(takenBy)
        && workers == old(workers)[w := if slept then InWait else AtLoop]
    {
      waiters := waiters.Resume(w);
      slept, task := false, Empty;
      if queue == [] && running {
        waiters, workers := waiters.Sleep(w), workers[w := InWait];
        return true, Empty;
      }
      if queue != [] {
        task := queue[0];
        queue := queue[1..];
        workers := workers[w := if task.Call? then Hold(|taken|, task) else AtLoop];
        taken, takenBy := taken + [task], takenBy + [w];
      } else {
        workers := workers[w := AtLoop];
      }
    }

    /** A wake-up of worker `w` that nobody asked for. */
    method SpuriousWakeup(w: nat)
      requires Valid() && w in waiters.asleep
      modifies this`waiters
      ensures Valid() && State() == Next(old(State()), Action.Rouse(w))
      ensures waiters == Waiters(old(waiters.asleep) - {w}, old(waiters.woken) + {w})
    {
      waiters := waiters.Rouse(w);
    }

    /** The test of `running_` in `runInThread`. */
    method LoopTest(w: nat) returns (goOn: bool)
      requires Valid() && w < |workers| && workers[w].AtLoop?
      modifies this`workers
      ensures Valid() && State() == Next(old(State()), Action.LoopTest(w))
      ensures goOn == running && workers == old(workers)[w := if running then AtTake else Exited]
    {
      goOn := running;
      workers := workers[w := if running then AtTake else Exited];
    }

    ghost method Begin(w: nat)
      requires Valid() && w < |workers| && workers[w].Hold?
      modifies this`workers, this`began
      ensures Valid() && State() == Next(old(State()), Action.Begin(w))
      ensures workers == old(workers)[w := Busy(old(workers[w].ticket), old(workers[w].task))]
      ensures began == old(began) + [old(workers[w].ticket)]
    {
      began := began + [workers[w].ticket];
      workers := workers[w := Busy(workers[w].ticket, workers[w].task)];
    }

    ghost method End(w: nat)
      requires Valid() && w < |workers| && workers[w].Busy?
      modifies this`workers, this`ended
      ensures Valid() && State() == Next(old(State()), Action.End(w))
      ensures workers == old(workers)[w := if old(workers[w].task.Call? && workers[w].task.throws) then Exited else AtLoop]
      ensures ended == old(ended) + [old(workers[w].ticket)]
    {
      ended := ended + [workers[w].ticket];
      workers := workers[w := if workers[w].task.Call? && workers[w].task.throws then Exited else AtLoop];
    }
  }
}
