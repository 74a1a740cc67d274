/**
 The client of ThreadPool_test.cc: the main thread starts `n` workers, submits jobs and then
 `latch.countDown` for a latch of 1, waits on the latch, and stops the pool. Jobs may throw, may be
 empty functions, and do not use the pool or the latch themselves.
*/
module DrainBarriers {
  import opened Conditions
  import opened Sequences
  import L = CountDownLatches
  import P = ThreadPools

  datatype Client = Client(n: nat, jobs: seq<P.Task>) {
    /** Everything that is submitted; the last task is the latch's `countDown`. */
    function Script(): seq<P.Task> { jobs + [P.Call(0, false)] }
  }

  /** Where the main thread is. `Died` says that a task run by the main thread itself threw. */
  datatype Phase =
    | Fresh | Creating | Submitting(next: nat) | AtLatch | Stopping | Joining | Finished
    | Died(at: nat)

  datatype System = System(pool: P.Pool, latch: L.Latch, phase: Phase)

  datatype Action = Main(wake: set<Tid>) | Worker(w: nat) | RouseWorker(w: nat) | RouseMain

  const MAIN: Tid := 0

  function Init(): System { System(P.Init, L.Init(1), Fresh) }

  /** An empty function called by the main thread throws as well. */
  function FatalInline(task: P.Task): int { if task.Call? && !task.throws then 0 else 1 }

  predicate AllExited(pool: P.Pool) {
    forall w :: 0 <= w < |pool.workers| ==> pool.workers[w].Exited?
  }

  predicate Enabled(c: Client, s: System, a: Action) {
    match a
    case Main(wake) => (
      match s.phase
      case Fresh => P.Enabled(s.pool, P.Start(c.n))
      case Submitting(k) => k <= |c.jobs| && (s.pool.workers != [] ==> s.pool.waiters.MayWake(wake))
      case AtLatch => MAIN !in s.latch.waiters.asleep
      case Joining => AllExited(s.pool)
      case Finished => false
      case Died(_) => false
      case _ => true
      )
    case Worker(w) => s.pool.Live(w) && P.Enabled(s.pool, P.StepOf(s.pool, w))
    case RouseWorker(w) => w in s.pool.waiters.asleep
    case RouseMain => MAIN in s.latch.waiters.asleep
  }

  function AfterSubmit(c: Client, k: nat): Phase {
    if k < |c.jobs| then Submitting(k + 1) else AtLatch
  }

  function MainNext(c: Client, s: System, wake: set<Tid>): System
    requires Enabled(c, s, Main(wake))
  {
    match s.phase
    case Fresh =>
      s.(pool := P.Next(s.pool, P.Start(c.n)), phase := Creating)
    case Creating =>
      if s.pool.starting > 0 then s.(pool := P.Next(s.pool, P.Spawn))
      else s.(phase := Submitting(0))
    case Submitting(k) =>
      var task := c.Script()[k];
      if s.pool.workers != [] then
        s.(pool := P.Next(s.pool, P.Submit(task, wake)), phase := AfterSubmit(c, k))
      else
        var s' := s.(pool := P.Next(s.pool, P.RunInline(task)));
        if FatalInline(task) == 1 then s'.(phase := Died(k + 1))
        else if k < |c.jobs| then s'.(phase := Submitting(k + 1))
        else s'.(latch := L.Next(s.latch, L.CountDown), phase := AtLatch)
    case AtLatch =>
      var s' := s.(latch := L.Next(s.latch, if MAIN in s.latch.waiters.woken then L.Resume(MAIN) else L.Wait(MAIN)));
      if s.latch.count > 0 then s' else s'.(phase := Stopping)
    case Stopping => s.(pool := P.Next(s.pool, P.Stop), phase := Joining)
    case Joining => s.(phase := Finished)
  }

  /** The worker that begins the last task calls `countDown`. */
  function Next(c: Client, s: System, a: Action): System
    requires Enabled(c, s, a)
  {
    match a
    case Main(wake) => MainNext(c, s, wake)
    case Worker(w) =>
      var s' := s.(pool := P.Next(s.pool, P.StepOf(s.pool, w)));
      if s.pool.workers[w].Hold? && s.pool.workers[w].ticket == |c.jobs| then
        s'.(latch := L.Next(s.latch, L.CountDown))
      else s'
    case RouseWorker(w) => s.(pool := P.Next(s.pool, P.Rouse(w)))
    case RouseMain => s.(latch := L.Next(s.latch, L.Rouse(MAIN)))
  }

  /** A run picks any action at each point; picking a disabled one changes nothing. */
  function Run(c: Client, s: System, acts: seq<Action>): System
    decreases |acts|
  {
    if acts == [] then s
    else Run(c, if Enabled(c, s, acts[0]) then Next(c, s, acts[0]) else s, acts[1..])
  }

  // ---------------------------------------------------------------- invariants

  /** How many tasks of the script the main thread has handed over. */
  function Position(c: Client, phase: Phase): nat {
    match phase
    case Fresh => 0
    case Creating => 0
    case Submitting(k) => k
    case Died(k) => k
    case _ => |c.jobs| + 1
  }

  predicate Passed(phase: Phase) { phase.Stopping? || phase.Joining? || phase.Finished? }

  ghost predicate PhaseOk(c: Client, s: System) {
    && Position(c, s.phase) <= |c.jobs| + 1
    && (s.phase.Submitting? ==> s.phase.next <= |c.jobs|)
    && (s.phase.Fresh? ==> s.pool == P.Init)
    && (s.phase.Creating? ==> |s.pool.workers| + s.pool.starting == c.n)
    && (!s.phase.Fresh? && !s.phase.Creating? ==> |s.pool.workers| == c.n && s.pool.starting == 0)
    && (s.phase.Died? ==> c.n == 0)
    && (s.pool.running <==> !s.phase.Fresh? && !s.phase.Joining? && !s.phase.Finished?)
    && (s.phase.Finished? ==> AllExited(s.pool))
  }

  ghost predicate ScriptOk(c: Client, s: System) {
    var k := Position(c, s.phase);
    && k <= |c.Script()|
    && s.pool.submitted == (if c.n > 0 then c.Script()[..k] else [])
    && s.pool.inline == (if c.n > 0 then [] else c.Script()[..k])
    && (s.phase.Died? <==> Total(FatalInline, s.pool.inline) > 0)
    && Total(FatalInline, s.pool.inline) >= 0
  }

  ghost predicate LatchOk(c: Client, s: System) {
    && s.latch.waiters.Valid()
    && s.latch.waiters.asleep + s.latch.waiters.woken <= {MAIN}
    && (s.latch.waiters.Has(MAIN) ==> s.phase.AtLatch?)
    && s.latch.count == (if |c.jobs| in s.pool.began || |s.pool.inline| > |c.jobs| then 0 else 1)
    && (s.latch.count == 0 ==> s.latch.waiters.asleep == {})
    && (Passed(s.phase) ==> s.latch.count == 0)
  }

  ghost predicate Inv(c: Client, s: System) {
    P.Inv(s.pool) && PhaseOk(c, s) && ScriptOk(c, s) && LatchOk(c, s)
  }

  /** The step of the pool, and of the latch, that a step of the client makes, if it makes one. */
  function PoolActions(c: Client, s: System, a: Action): seq<P.Action>
    requires Enabled(c, s, a)
  {
    match a
    case Main(wake) => (
      match s.phase
      case Fresh => [P.Start(c.n)]
      case Creating => if s.pool.starting > 0 then [P.Spawn] else []
      case Submitting(k) =>
        if s.pool.workers != [] then [P.Submit(c.Script()[k], wake)] else [P.RunInline(c.Script()[k])]
      case Stopping => [P.Stop]
      case _ => []
      )
    case Worker(w) => [P.StepOf(s.pool, w)]
    case RouseWorker(w) => [P.Rouse(w)]
    case RouseMain => []
  }

  function LatchActions(c: Client, s: System, a: Action): seq<L.Action>
    requires Enabled(c, s, a)
  {
    match a
    case Main(_) =>
      if s.phase.AtLatch? then [if MAIN in s.latch.waiters.woken then L.Resume(MAIN) else L.Wait(MAIN)]
      else if s.phase == Submitting(|c.jobs|) && s.pool.workers == [] then [L.CountDown]
      else []
    case Worker(w) =>
      if s.pool.workers[w].Hold? && s.pool.workers[w].ticket == |c.jobs| then [L.CountDown] else []
    case RouseWorker(w) => []
    case RouseMain => [L.Rouse(MAIN)]
  }

  lemma PoolStep(c: Client, s: System, a: Action)
    requires Enabled(c, s, a)
    ensures var ps := PoolActions(c, s, a); var p' := Next(c, s, a).pool;
      if ps == [] then p' == s.pool else P.Enabled(s.pool, ps[0]) && p' == P.Next(s.pool, ps[0]) && |ps| == 1
  {
  }

  lemma LatchStep(c: Client, s: System, a: Action)
    requires Enabled(c, s, a)
    ensures var ls := LatchActions(c, s, a); var l' := Next(c, s, a).latch;
      if ls == [] then l' == s.latch else |ls| == 1 && L.Enabled(s.latch, ls[0]) && l' == L.Next(s.latch, ls[0])
  {
  }

  lemma StepKeepsPool(c: Client, s: System, a: Action)
    requires P.Inv(s.pool) && Enabled(c, s, a)
    ensures P.Inv(Next(c, s, a).pool)
  {
    PoolStep(c, s, a);
    var ps := PoolActions(c, s, a);
    if ps != [] { P.StepKeepsInv(s.pool, ps[0]); }
  }

  /** The pool and the latch of every run of the client are those of a run of the pool alone and of one of
      the latch alone, in which everything proved about them holds. */
  lemma {:induction false} ComponentsRunAlone(c: Client, s: System, acts: seq<Action>)
    returns (ps: seq<P.Action>, ls: seq<L.Action>)
    ensures Run(c, s, acts).pool == P.Run(s.pool, ps) && Run(c, s, acts).latch == L.Run(s.latch, ls)
    decreases |acts|
  {
    if acts == [] {
      ps, ls := [], [];
    } else if Enabled(c, s, acts[0]) {
      PoolStep(c, s, acts[0]);
      LatchStep(c, s, acts[0]);
      ps, ls := ComponentsRunAlone(c, Next(c, s, acts[0]), acts[1..]);
      ps := Before(PoolActions(c, s, acts[0]), ps);
      ls := Before(LatchActions(c, s, acts[0]), ls);
    } else {
      ps, ls := ComponentsRunAlone(c, s, acts[1..]);
    }
  }

  lemma StepKeepsPhase(c: Client, s: System, a: Action)
    requires PhaseOk(c, s) && Enabled(c, s, a)
    ensures PhaseOk(c, Next(c, s, a))
  {
  }

  lemma ScriptGrows(c: Client, k: nat)
    requires k < |c.Script()|
    ensures c.Script()[..k + 1] == c.Script()[..k] + [c.Script()[k]]
    ensures Total(FatalInline, c.Script()[..k + 1]) ==
      Total(FatalInline, c.Script()[..k]) + FatalInline(c.Script()[k])
  {
    assert c.Script()[..k + 1] == c.Script()[..k] + [c.Script()[k]];
    TotalAppend(FatalInline, c.Script()[..k], c.Script()[k]);
  }

  lemma SubmitKeepsScript(c: Client, s: System, wake: set<Tid>)
    requires PhaseOk(c, s) && ScriptOk(c, s) && s.phase.Submitting? && Enabled(c, s, Main(wake))
    ensures ScriptOk(c, Next(c, s, Main(wake)))
  {
    var s' := Next(c, s, Main(wake));
    var k := s.phase.next;
    ScriptGrows(c, k);
    assert Position(c, s'.phase) == k + 1;
  }

  lemma StepKeepsScript(c: Client, s: System, a: Action)
    requires PhaseOk(c, s) && ScriptOk(c, s) && Enabled(c, s, a)
    ensures ScriptOk(c, Next(c, s, a))
  {
    if a.Main? && s.phase.Submitting? {
      SubmitKeepsScript(c, s, a.wake);
    } else {
      assert Position(c, Next(c, s, a).phase) == Position(c, s.phase);
    }
  }

  lemma WorkerKeepsLatch(c: Client, s: System, w: nat)
    requires P.OnceOk(s.pool) && LatchOk(c, s) && Enabled(c, s, Worker(w))
    requires Passed(s.phase) || s.phase.AtLatch? || s.latch.waiters.asleep == {}
    requires |s.pool.inline| <= |c.jobs|
    ensures LatchOk(c, Next(c, s, Worker(w)))
  {
    var b := P.StepOf(s.pool, w);
    var pool := P.Next(s.pool, b);
    if b.Begin? {
      var i := s.pool.workers[w].ticket;
      assert i !in s.pool.began;
      assert |c.jobs| in pool.began <==> |c.jobs| in s.pool.began || |c.jobs| == i;
    } else {
      assert pool.began == s.pool.began;
    }
  }

  lemma MainKeepsLatch(c: Client, s: System, wake: set<Tid>)
    requires PhaseOk(c, s) && ScriptOk(c, s) && LatchOk(c, s) && Enabled(c, s, Main(wake))
    requires s.pool.workers == [] ==> s.pool.began == []
    ensures LatchOk(c, Next(c, s, Main(wake)))
  {
  }

  /** Before there are workers nothing has begun, and with workers the main thread runs nothing itself. */
  lemma WhoRunsTasks(c: Client, s: System)
    requires P.HistoryOk(s.pool) && P.LossesOk(s.pool) && PhaseOk(c, s) && ScriptOk(c, s)
    ensures s.pool.workers == [] ==> s.pool.began == []
    ensures s.pool.workers != [] ==> s.pool.inline == []
  {
    assert s.pool.began != [] ==> s.pool.began[0] in s.pool.began;
  }

  lemma StepKeepsLatch(c: Client, s: System, a: Action)
    requires P.OnceOk(s.pool) && PhaseOk(c, s) && ScriptOk(c, s) && LatchOk(c, s) && Enabled(c, s, a)
    requires s.pool.workers == [] ==> s.pool.began == []
    requires s.pool.workers != [] ==> s.pool.inline == []
    ensures LatchOk(c, Next(c, s, a))
  {
    match a
    case Main(wake) => MainKeepsLatch(c, s, wake);
    case Worker(w) => WorkerKeepsLatch(c, s, w);
    case _ =>
  }

  lemma StepKeepsInv(c: Client, s: System, a: Action)
    requires Inv(c, s) && Enabled(c, s, a)
    ensures Inv(c, Next(c, s, a))
  {
    StepKeepsPool(c, s, a);
    StepKeepsPhase(c, s, a);
    StepKeepsScript(c, s, a);
    WhoRunsTasks(c, s);
    StepKeepsLatch(c, s, a);
  }

  lemma {:induction false} RunKeepsInv(c: Client, s: System, acts: seq<Action>)
    requires Inv(c, s)
    ensures Inv(c, Run(c, s, acts))
    decreases |acts|
  {
    if acts == [] {
    } else {
      if Enabled(c, s, acts[0]) { StepKeepsInv(c, s, acts[0]); }
      RunKeepsInv(c, if Enabled(c, s, acts[0]) then Next(c, s, acts[0]) else s, acts[1..]);
    }
  }

  lemma InitKeepsScript(c: Client)
    ensures ScriptOk(c, Init())
  {
    assert c.Script()[..0] == [];
    assert Init().pool.inline == [];
  }

  lemma InitInv(c: Client)
    ensures Inv(c, Init())
  {
    P.InitInv();
    InitKeepsScript(c);
    assert Init().pool.began == [];
  }

  // ---------------------------------------------------------------- safety

  /** Which tasks have been dequeued, in order, by workers or by the main thread itself. */
  function Dequeued(c: Client, s: System): seq<P.Task> {
    if c.n > 0 then s.pool.taken else s.pool.inline
  }

  lemma PassedMeansDequeued(c: Client, s: System)
    requires Inv(c, s) && Passed(s.phase)
    ensures Dequeued(c, s) == c.Script()
  {
    assert c.Script()[..|c.jobs| + 1] == c.Script();
    if c.n > 0 {
      assert |c.jobs| in s.pool.began;
      assert |s.pool.taken| + |s.pool.queue| == |c.jobs| + 1;
    }
  }

  /** Every non-empty task began once and is over, having returned or thrown once. */
  ghost predicate AllOver(c: Client, s: System) {
    && Distinct(s.pool.began) && Distinct(s.pool.ended)
    && (forall i :: i in s.pool.began <==> 0 <= i < |c.Script()| && c.Script()[i].Call?)
    && (forall i :: i in s.pool.ended <==> 0 <= i < |c.Script()| && c.Script()[i].Call?)
  }

  lemma FinishedMeansOver(c: Client, s: System)
    requires Inv(c, s) && s.phase.Finished? && c.n > 0
    ensures AllOver(c, s)
  {
    PassedMeansDequeued(c, s);
    forall i: nat | i < |c.Script()| && c.Script()[i].Call? ensures i in s.pool.ended {
      assert s.pool.taken[i].Call?;
      assert i !in s.pool.ended ==> P.InHands(s.pool, i);
    }
  }

  /** The drain barrier, for every number of workers and every run: when `latch.wait` has returned,
      all jobs have been dequeued in submission order (with no workers: executed by the main thread);
      when `stop` has returned, each has begun once and returned or thrown exactly once. */
  lemma DrainBarrier(c: Client, acts: seq<Action>)
    ensures var s := Run(c, Init(), acts);
      && (Passed(s.phase) ==> Dequeued(c, s) == c.jobs + [P.Call(0, false)])
      && (s.phase.Finished? && c.n > 0 ==> AllOver(c, s))
  {
    InitInv(c);
    RunKeepsInv(c, Init(), acts);
    var s := Run(c, Init(), acts);
    if Passed(s.phase) { PassedMeansDequeued(c, s); }
    if s.phase.Finished? && c.n > 0 { FinishedMeansOver(c, s); }
  }

  // ---------------------------------------------------------------- when the client gets stuck

  function JobLosses(c: Client): int {
    if c.n > 0 then Total(P.Throws, c.jobs) else Total(FatalInline, c.jobs)
  }

  /** The jobs that throw leave somebody to run `countDown`. */
  predicate Survives(c: Client) { JobLosses(c) < if c.n > 0 then c.n else 1 }

  lemma LossesSoFar(c: Client, f: P.Task -> int, k: nat)
    requires forall t :: f(t) >= 0
    requires k <= |c.Script()| && f(P.Call(0, false)) == 0
    ensures 0 <= Total(f, c.Script()[..k]) <= Total(f, c.jobs)
    ensures k >= |c.jobs| ==> Total(f, c.Script()[..k]) == Total(f, c.jobs)
  {
    TotalSplit(f, c.Script()[..k], c.Script()[k..]);
    assert c.Script()[..k] + c.Script()[k..] == c.Script();
    TotalAppend(f, c.jobs, P.Call(0, false));
    TotalAtLeast(f, c.Script()[k..], 0);
    TotalAtLeast(f, c.Script()[..k], 0);
    if k == |c.jobs| { assert c.Script()[..k] == c.jobs; }
    if k == |c.jobs| + 1 { assert c.Script()[..k] == c.Script(); }
  }

  /** With too many throwing jobs the latch's task is never dequeued. */
  ghost predicate Hopeless(c: Client, s: System) { |s.pool.taken| <= |c.jobs| }

  lemma DequeuedPrefix(c: Client, s: System)
    requires P.Fifo(s.pool) && ScriptOk(c, s) && c.n > 0
    ensures |s.pool.taken| <= |c.Script()| && s.pool.taken == c.Script()[..|s.pool.taken|]
  {
    var k := |s.pool.taken|;
    assert s.pool.taken == s.pool.submitted[..k];
  }

  /** When all jobs have been dequeued, all workers are doomed: none is left to dequeue the next task. */
  lemma NobodyLeft(c: Client, s: System, w: nat)
    requires Inv(c, s) && c.n > 0 && !Survives(c) && |s.pool.taken| == |c.jobs|
    requires s.pool.Live(w)
    ensures !s.pool.workers[w].AtTake? && !s.pool.workers[w].InWait?
  {
    if P.Doomed(s.pool.workers[w]) == 0 {
      DequeuedPrefix(c, s);
      LossesSoFar(c, P.Throws, |c.jobs|);
      TotalUpdate(P.Doomed, s.pool.workers, w, P.Exited);
      TotalAtMost(P.Doomed, s.pool.workers[w := P.Exited], 1);
    }
  }

  lemma StepGrowsTaken(c: Client, s: System, a: Action)
    requires Enabled(c, s, a)
    ensures var p' := Next(c, s, a).pool;
      if a.Worker? && P.StepOf(s.pool, a.w).Take? then |p'.taken| <= |s.pool.taken| + 1
      else p'.taken == s.pool.taken
  {
  }

  lemma StepKeepsHopeless(c: Client, s: System, a: Action)
    requires Inv(c, s) && Hopeless(c, s) && c.n > 0 && !Survives(c) && Enabled(c, s, a)
    ensures Hopeless(c, Next(c, s, a))
  {
    StepGrowsTaken(c, s, a);
    if a.Worker? && |s.pool.taken| == |c.jobs| { NobodyLeft(c, s, a.w); }
  }

  lemma {:induction false} RunKeepsHopeless(c: Client, s: System, acts: seq<Action>)
    requires Inv(c, s) && Hopeless(c, s) && c.n > 0 && !Survives(c)
    ensures Hopeless(c, Run(c, s, acts))
    decreases |acts|
  {
    if acts == [] {
    } else {
      if Enabled(c, s, acts[0]) {
        StepKeepsInv(c, s, acts[0]);
        StepKeepsHopeless(c, s, acts[0]);
      }
      RunKeepsHopeless(c, if Enabled(c, s, acts[0]) then Next(c, s, acts[0]) else s, acts[1..]);
    }
  }

  lemma HopelessMeansNotPassed(c: Client, s: System)
    requires Inv(c, s) && !Survives(c) && (c.n > 0 ==> Hopeless(c, s))
    ensures !Passed(s.phase)
  {
    LossesSoFar(c, FatalInline, Position(c, s.phase));
    if Passed(s.phase) { PassedMeansDequeued(c, s); }
  }

  /** If as many jobs throw as there are workers (or one, when the main thread runs them itself),
      `latch.wait` returns in no run at all. */
  lemma NeverPasses(c: Client, acts: seq<Action>)
    requires !Survives(c)
    ensures !Passed(Run(c, Init(), acts).phase)
  {
    InitInv(c);
    RunKeepsInv(c, Init(), acts);
    if c.n > 0 { RunKeepsHopeless(c, Init(), acts); }
    HopelessMeansNotPassed(c, Run(c, Init(), acts));
  }

  /** Some step other than a spurious wake-up is possible. */
  ghost predicate CanMove(c: Client, s: System) {
    exists a :: Enabled(c, s, a) && !IsRouse(a)
  }

  predicate IsRouse(a: Action) { a.RouseWorker? || a.RouseMain? }

  /** A worker that is neither gone nor about to be lost, when fewer tasks throw than there are workers. */
  lemma SomeWorkerSurvives(c: Client, s: System) returns (w: nat)
    requires Inv(c, s) && c.n > 0 && Survives(c) && s.phase.AtLatch?
    ensures s.pool.Live(w) && P.Doomed(s.pool.workers[w]) == 0
  {
    DequeuedPrefix(c, s);
    LossesSoFar(c, P.Throws, |s.pool.taken|);
    if forall i :: 0 <= i < |s.pool.workers| ==> 1 <= P.Doomed(s.pool.workers[i]) {
      TotalAtLeast(P.Doomed, s.pool.workers, 1);
    }
    w :| w < |s.pool.workers| && !(1 <= P.Doomed(s.pool.workers[w]));
  }

  lemma WorkerCanMove(c: Client, s: System, w: nat)
    requires P.WaitersOk(s.pool) && s.pool.Live(w) && w !in s.pool.waiters.asleep
    ensures CanMove(c, s)
  {
    assert s.pool.workers[w].InWait? ==> s.pool.waiters.Has(w);
    assert Enabled(c, s, Worker(w));
  }

  lemma WaitingMainIsServed(c: Client, s: System)
    requires Inv(c, s) && Survives(c) && s.phase.AtLatch? && MAIN in s.latch.waiters.asleep
    ensures CanMove(c, s)
  {
    assert c.Script()[..|c.jobs| + 1] == c.Script();
    assert |c.jobs| !in s.pool.began;
    var w := SomeWorkerSurvives(c, s);
    if w !in s.pool.waiters.asleep {
      WorkerCanMove(c, s, w);
    } else if u :| u in s.pool.waiters.woken {
      assert s.pool.waiters.Has(u);
      WorkerCanMove(c, s, u);
    } else {
      assert s.pool.queue == [];
      assert s.pool.taken[|c.jobs|].Call?;
      assert P.InHands(s.pool, |c.jobs|);
      var u := s.pool.takenBy[|c.jobs|];
      assert u !in s.pool.waiters.asleep;
      WorkerCanMove(c, s, u);
    }
  }

  lemma JoinsReturn(c: Client, s: System)
    requires Inv(c, s) && s.phase.Joining?
    ensures CanMove(c, s)
  {
    if AllExited(s.pool) {
      assert Enabled(c, s, Main({}));
    } else {
      var w: nat :| w < |s.pool.workers| && !s.pool.workers[w].Exited?;
      P.StoppedState(s.pool);
      WorkerCanMove(c, s, w);
    }
  }

  lemma NeverStuck(c: Client, s: System)
    requires Inv(c, s) && Survives(c) && !s.phase.Finished?
    ensures CanMove(c, s)
  {
    if s.phase.Submitting? {
      assert Enabled(c, s, Main(s.pool.waiters.asleep));
    } else if s.phase.AtLatch? && MAIN in s.latch.waiters.asleep {
      WaitingMainIsServed(c, s);
    } else if s.phase.Joining? {
      JoinsReturn(c, s);
    } else if s.phase.Died? {
      LossesSoFar(c, FatalInline, s.phase.at);
      assert false;
    } else {
      assert Enabled(c, s, Main({}));
    }
  }

  // ---------------------------------------------------------------- every run is finite

  function Weight(pc: P.Pc): int {
    match pc
    case AtLoop => 3
    case AtTake => 2
    case InWait => 1
    case Hold(_, _) => 6
    case Busy(_, _) => 4
    case Exited => 0
  }

  /** Once the pool is stopped a worker that comes back to its loop has one step left. */
  function WeightStopped(pc: P.Pc): int { if pc.AtLoop? then 1 else Weight(pc) }

  ghost function MainLeft(c: Client, s: System): nat
    requires PhaseOk(c, s)
  {
    match s.phase
    case Fresh => c.n + |c.jobs| + 6
    case Creating => s.pool.starting + |c.jobs| + 5
    case Submitting(k) => |c.jobs| + 4 - k
    case AtLatch => 3
    case Stopping => 2
    case Joining => 1
    case _ => 0
  }

  function WorkerPart(p: P.Pool): int {
    6 * |p.queue| + |p.waiters.woken| + (if p.running then Total(Weight, p.workers) else Total(WeightStopped, p.workers))
  }

  function MainAwake(s: System): int { if MAIN in s.latch.waiters.asleep then 0 else 1 }

  ghost function Rank(c: Client, s: System): int
    requires PhaseOk(c, s)
  {
    Times(c.n + 8, MainLeft(c, s)) + WorkerPart(s.pool) + MainAwake(s)
  }

  lemma RunningStepRank(p: P.Pool, w: nat)
    requires p.running && p.Live(w) && P.Enabled(p, P.StepOf(p, w))
    requires p.workers[w].InWait? <==> w in p.waiters.woken
    ensures WorkerPart(P.Next(p, P.StepOf(p, w))) <= WorkerPart(p) - if P.StepOf(p, w).Begin? then 2 else 1
  {
    var p' := P.Next(p, P.StepOf(p, w));
    assert p'.workers == p.workers[w := p'.workers[w]];
    TotalUpdate(Weight, p.workers, w, p'.workers[w]);
  }

  lemma StoppedStepRank(p: P.Pool, w: nat)
    requires !p.running && p.Live(w) && P.Enabled(p, P.StepOf(p, w))
    requires p.workers[w].InWait? <==> w in p.waiters.woken
    ensures WorkerPart(P.Next(p, P.StepOf(p, w))) <= WorkerPart(p) - if P.StepOf(p, w).Begin? then 2 else 1
  {
    var p' := P.Next(p, P.StepOf(p, w));
    assert p'.workers == p.workers[w := p'.workers[w]];
    TotalUpdate(WeightStopped, p.workers, w, p'.workers[w]);
  }

  lemma SubmitRank(p: P.Pool, task: P.Task, wake: set<Tid>)
    requires P.WaitersOk(p) && P.Enabled(p, P.Submit(task, wake))
    ensures WorkerPart(P.Next(p, P.Submit(task, wake))) <= WorkerPart(p) + |p.workers| + 6
  {
    p.waiters.NotifyCounts(wake);
    SleepersAreWorkers(p);
  }

  lemma StopRank(p: P.Pool)
    requires P.WaitersOk(p)
    ensures WorkerPart(P.Next(p, P.Stop)) <= WorkerPart(p) + |p.workers|
  {
    TotalMonotone(WeightStopped, Weight, p.workers);
    p.waiters.NotifyAllCounts();
    SleepersAreWorkers(p);
  }

  lemma MainStepWorkerPart(c: Client, s: System, wake: set<Tid>)
    requires PhaseOk(c, s) && P.WaitersOk(s.pool) && Enabled(c, s, Main(wake))
    ensures WorkerPart(Next(c, s, Main(wake)).pool) <= WorkerPart(s.pool) + c.n + 6
    ensures s.phase.AtLatch? || s.phase.Joining? ==> Next(c, s, Main(wake)).pool == s.pool
  {
    var p := s.pool;
    match s.phase
    case Creating =>
      TotalAppend(Weight, p.workers, P.AtLoop);
      TotalAppend(WeightStopped, p.workers, P.AtLoop);
    case Submitting(k) =>
      if p.workers != [] { SubmitRank(p, c.Script()[k], wake); }
    case Stopping => StopRank(p);
    case _ =>
  }

  lemma SleepersAreWorkers(p: P.Pool)
    requires P.WaitersOk(p)
    ensures |p.waiters.asleep| <= |p.workers|
  {
    assert forall w :: w in p.waiters.asleep ==> p.waiters.Has(w);
    BoundedSet(p.waiters.asleep, |p.workers|);
  }

  lemma MainStepRank(c: Client, s: System, wake: set<Tid>)
    requires PhaseOk(c, s) && LatchOk(c, s) && P.WaitersOk(s.pool) && Enabled(c, s, Main(wake))
    requires PhaseOk(c, Next(c, s, Main(wake)))
    ensures Rank(c, Next(c, s, Main(wake))) < Rank(c, s)
  {
    var s' := Next(c, s, Main(wake));
    MainStepWorkerPart(c, s, wake);
    if MainLeft(c, s') < MainLeft(c, s) {
      TimesGap(c.n + 8, MainLeft(c, s'), MainLeft(c, s));
    }
  }

  lemma WorkerStepRank(c: Client, s: System, w: nat)
    requires P.WaitersOk(s.pool) && Enabled(c, s, Worker(w))
    ensures var s' := Next(c, s, Worker(w));
      WorkerPart(s'.pool) + MainAwake(s') <= WorkerPart(s.pool) + MainAwake(s) - 1
  {
    assert s.pool.workers[w].InWait? <==> w in s.pool.waiters.woken;
    if s.pool.running { RunningStepRank(s.pool, w); } else { StoppedStepRank(s.pool, w); }
    assert s.pool.workers[w].Hold? <==> P.StepOf(s.pool, w).Begin?;
  }

  lemma OtherStepRank(c: Client, s: System, a: Action)
    requires P.WaitersOk(s.pool) && Enabled(c, s, a) && !a.Main?
    ensures var s' := Next(c, s, a);
      && s'.phase == s.phase && s'.pool.starting == s.pool.starting
      && WorkerPart(s'.pool) + MainAwake(s') <=
           WorkerPart(s.pool) + MainAwake(s) + if IsRouse(a) then 1 else -1
  {
    match a
    case Worker(w) => WorkerStepRank(c, s, w);
    case RouseWorker(w) => s.pool.waiters.RouseCounts(w);
    case RouseMain =>
  }

  lemma StepRank(c: Client, s: System, a: Action)
    requires PhaseOk(c, s) && LatchOk(c, s) && P.WaitersOk(s.pool) && Enabled(c, s, a)
    requires PhaseOk(c, Next(c, s, a))
    ensures Rank(c, Next(c, s, a)) <= if IsRouse(a) then Rank(c, s) + 1 else Rank(c, s) - 1
  {
    if a.Main? {
      MainStepRank(c, s, a.wake);
    } else {
      OtherStepRank(c, s, a);
      assert MainLeft(c, Next(c, s, a)) == MainLeft(c, s);
    }
  }

  lemma InitRank(c: Client)
    ensures PhaseOk(c, Init()) && Rank(c, Init()) == (c.n + 8) * (c.n + |c.jobs| + 6) + 1
  {
    TimesIsProduct(c.n + 8, c.n + |c.jobs| + 6);
  }

  lemma RankNonNegative(c: Client, s: System)
    requires PhaseOk(c, s)
    ensures Rank(c, s) >= 0
  {
    TotalAtLeast(Weight, s.pool.workers, 0);
    TotalAtLeast(WeightStopped, s.pool.workers, 0);
  }

  /** The steps a run really makes, without the spurious wake-ups; and the spurious wake-ups. */
  function Moves(c: Client, s: System, acts: seq<Action>): nat
    decreases |acts|
  {
    if acts == [] then 0
    else if !Enabled(c, s, acts[0]) then Moves(c, s, acts[1..])
    else (if IsRouse(acts[0]) then 0 else 1) + Moves(c, Next(c, s, acts[0]), acts[1..])
  }

  function Rouses(c: Client, s: System, acts: seq<Action>): nat
    decreases |acts|
  {
    if acts == [] then 0
    else if !Enabled(c, s, acts[0]) then Rouses(c, s, acts[1..])
    else (if IsRouse(acts[0]) then 1 else 0) + Rouses(c, Next(c, s, acts[0]), acts[1..])
  }

  lemma {:induction false} RunRank(c: Client, s: System, acts: seq<Action>)
    requires Inv(c, s)
    ensures Inv(c, Run(c, s, acts))
    ensures Moves(c, s, acts) + Rank(c, Run(c, s, acts)) <= Rank(c, s) + Rouses(c, s, acts)
    decreases |acts|
  {
    if acts == [] {
    } else {
      if Enabled(c, s, acts[0]) {
        StepKeepsInv(c, s, acts[0]);
        StepRank(c, s, acts[0]);
        RunRank(c, Next(c, s, acts[0]), acts[1..]);
      } else {
        RunRank(c, s, acts[1..]);
      }
    }
  }

  /** No schedule can postpone the end for ever: every run makes a bounded number of steps, plus one
      for each spurious wake-up. */
  lemma RunsAreBounded(c: Client, acts: seq<Action>)
    ensures Moves(c, Init(), acts) <= (c.n + 8) * (c.n + |c.jobs| + 6) + 1 + Rouses(c, Init(), acts)
  {
    InitInv(c);
    RunRank(c, Init(), acts);
    RankNonNegative(c, Run(c, Init(), acts));
    InitRank(c);
  }

  /** Continuing as long as possible ends in a state where nothing but spurious wake-ups can happen. */
  lemma {:induction false} RunToTheEnd(c: Client, s: System) returns (acts: seq<Action>)
    requires Inv(c, s)
    ensures !CanMove(c, Run(c, s, acts))
    decreases Rank(c, s)
  {
    RankNonNegative(c, s);
    if a :| Enabled(c, s, a) && !IsRouse(a) {
      StepKeepsInv(c, s, a);
      StepRank(c, s, a);
      RankNonNegative(c, Next(c, s, a));
      var rest := RunToTheEnd(c, Next(c, s, a));
      acts := [a] + rest;
      assert acts[1..] == rest;
    } else {
      acts := [];
    }
  }

  lemma {:induction false} NoneIsFatal(jobs: seq<P.Task>)
    ensures Total(FatalInline, jobs) >= 0
    ensures Total(FatalInline, jobs) == 0 <==> forall i :: 0 <= i < |jobs| ==> jobs[i].Call? && !jobs[i].throws
    decreases |jobs|
  {
    if jobs == [] {
    } else {
      NoneIsFatal(jobs[1..]);
      assert forall i :: 1 <= i < |jobs| ==> jobs[i] == jobs[1..][i - 1];
    }
  }

  /** The client runs to its end under every schedule exactly when fewer jobs throw than there are
      workers (none may throw or be empty when there are no workers); otherwise it always gets stuck. */
  lemma FinishesIffSurvives(c: Client)
    ensures c.n == 0 ==> (Survives(c) <==> forall i :: 0 <= i < |c.jobs| ==> c.jobs[i].Call? && !c.jobs[i].throws)
    ensures Survives(c) <==>
            forall acts :: Run(c, Init(), acts).phase.Finished? || CanMove(c, Run(c, Init(), acts))
  {
    InitInv(c);
    if c.n == 0 { NoneIsFatal(c.jobs); }
    if Survives(c) {
      forall acts
        ensures Run(c, Init(), acts).phase.Finished? || CanMove(c, Run(c, Init(), acts))
      {
        RunKeepsInv(c, Init(), acts);
        var s := Run(c, Init(), acts);
        if !s.phase.Finished? { NeverStuck(c, s); }
      }
    } else {
      var acts := RunToTheEnd(c, Init());
      NeverPasses(c, acts);
    }
  }

  // ---------------------------------------------------------------- the program

  /** The test program with its threads: `pcs` says where each worker thread is. */
  class PoolTest {
    const c: Client
    const pool: P.ThreadPool
    const latch: L.CountDownLatch
    var phase: Phase
    var pcs: seq<P.Pc>
    var dequeued: nat

    ghost predicate Valid()
      reads this, pool
    {
      && pool.Valid() && pcs == pool.workers && dequeued == |pool.taken|
      && (phase.Fresh? ==> pcs == [] && pool.starting == 0)
      && (phase.Creating? ==> |pcs| + pool.starting == c.n)
      && (phase.Submitting? ==> phase.next <= |c.jobs|)
    }

    ghost function State(): System
      reads this, pool, latch
    {
      System(pool.State(), latch.State(), phase)
    }

    constructor (c: Client)
      ensures Valid() && this.c == c && fresh(pool) && fresh(latch)
      ensures State() == Init()
    {
      this.c := c;
      pool := new P.ThreadPool();
      latch := new L.CountDownLatch(1);
      phase, pcs, dequeued := Fresh, [], 0;
    }

    /** The next piece of `main`. */
    method MainTurn(wake: set<Tid>)
      requires Valid() && Enabled(c, State(), Main(wake))
      modifies this, pool, latch
      ensures Valid() && State() == Next(c, old(State()), Main(wake))
    {
      match phase {
      case Fresh =>
        pool.Start(c.n);
        phase := Creating;
      case Creating =>
        if |pcs| < c.n {
          pool.Spawn();
          pcs := pcs + [P.AtLoop];
        } else {
          phase := Submitting(0);
        }
      case Submitting(_) => SubmitTurn(wake);
      case AtLatch =>
        var returned := latch.WaitTurn(MAIN);
        if returned {
          phase := Stopping;
        }
      case Stopping =>
        pool.Stop();
        phase := Joining;
      case Joining =>
        phase := Finished;
      }
    }

    /** One turn of the loop that submits the jobs, and at its end the latch's `countDown`. */
    method SubmitTurn(wake: set<Tid>)
      requires Valid() && phase.Submitting? && Enabled(c, State(), Main(wake))
      modifies this`phase, pool, latch
      ensures Valid() && State() == Next(c, old(State()), Main(wake))
    {
      var k := phase.next;
      var task := c.Script()[k];
      var queued := SubmitOrRun(task, wake);
      if !queued && !(task.Call? && !task.throws) {
        phase := Died(k + 1);
      } else {
        if !queued && k == |c.jobs| {
          latch.CountDown();
        }
        phase := if k < |c.jobs| then Submitting(k + 1) else AtLatch;
      }
    }

    method SubmitOrRun(task: P.Task, wake: set<Tid>) returns (queued: bool)
      requires Valid() && (pcs != [] ==> pool.waiters.MayWake(wake))
      modifies pool
      ensures Valid() && (queued <==> pcs != [])
      ensures pool.State() == P.Next(old(pool.State()), if queued then P.Submit(task, wake) else P.RunInline(task))
    {
      queued := pool.Submit(task, if pcs == [] then pool.waiters.asleep else wake);
    }

    /** The next piece of worker `w`. */
    method WorkerTurn(w: nat)
      requires Valid() && Enabled(c, State(), Worker(w))
      modifies this, pool, latch
      ensures Valid() && State() == Next(c, old(State()), Worker(w))
    {
      match pcs[w] {
      case AtLoop =>
        var goOn := pool.LoopTest(w);
        pcs := pcs[w := if goOn then P.AtTake else P.Exited];
      case AtTake => TakeTurn(w);
      case InWait => TakeTurn(w);
      case Hold(ticket, task) =>
        pool.Begin(w);
        if ticket == |c.jobs| {
          latch.CountDown();
        }
        pcs := pcs[w := P.Busy(ticket, task)];
      case Busy(_, task) =>
        pool.End(w);
        pcs := pcs[w := if task.Call? && task.throws then P.Exited else P.AtLoop];
      }
    }

    method TakeTurn(w: nat)
      requires Valid() && P.Enabled(pool.State(), P.Take(w))
      modifies this`pcs, this`dequeued, pool
      ensures Valid() && pool.State() == P.Next(old(pool.State()), P.Take(w))
    {
      var empty := pool.queue == [];
      var slept, task := pool.TakeTurn(w);
      pcs := pcs[w := if slept then P.InWait else if task.Call? then P.Hold(dequeued, task) else P.AtLoop];
      if !empty {
        dequeued := dequeued + 1;
      }
    }

    /** Whether the thread that `a` names is able to make its step now. */
    method Ready(a: Action) returns (ready: bool)
      requires Valid()
      ensures ready <==> Enabled(c, State(), a)
    {
      match a {
      case Main(wake) =>
        match phase {
        case Submitting(k) => return pcs != [] ==> pool.waiters.MayWake(wake);
        case AtLatch => return MAIN !in latch.waiters.asleep;
        case Joining => return forall w :: 0 <= w < |pcs| ==> pcs[w].Exited?;
        case Finished => return false;
        case Died(_) => return false;
        case _ => return true;
        }
      case Worker(w) =>
        return w < |pcs| && !pcs[w].Exited? && (pcs[w].InWait? ==> w in pool.waiters.woken);
      case RouseWorker(w) => return w in pool.waiters.asleep;
      case RouseMain => return MAIN in latch.waiters.asleep;
      }
    }

    /** Executes the program under a schedule. Whatever the schedule, once `main` is past the latch
        the jobs have been dequeued in order, and once it is past `stop` they are over. It can always be
        continued until then if the jobs leave a worker, and otherwise never gets past the latch. */
    method Execute(schedule: seq<Action>)
      requires Valid() && State() == Init()
      modifies this, pool, latch
      ensures Valid() && State() == Run(c, Init(), schedule)
      ensures Passed(phase) && c.n > 0 ==> pool.taken == c.jobs + [P.Call(0, false)]
      ensures phase.Finished? && c.n > 0 ==> AllOver(c, State())
      ensures if Survives(c) then phase.Finished? || CanMove(c, State()) else !Passed(phase)
    {
      for i := 0 to |schedule|
        invariant Valid()
        invariant Run(c, State(), schedule[i..]) == Run(c, Init(), schedule)
      {
        assert schedule[i..][1..] == schedule[i + 1..];
        var ready := Ready(schedule[i]);
        if ready {
          match schedule[i] {
          case Main(wake) => MainTurn(wake);
          case Worker(w) => WorkerTurn(w);
          case RouseWorker(w) => pool.SpuriousWakeup(w);
          case RouseMain => latch.SpuriousWakeup(MAIN);
          }
        }
      }
      DrainBarrier(c, schedule);
      if Survives(c) { FinishesIffSurvives(c); } else { NeverPasses(c, schedule); }
    }
  }
}
