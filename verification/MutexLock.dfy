/**
 `MutexLock` with its debugging field `holder_`, step by step. `lock` is two steps (get the pthread
 mutex, then write `holder_`), `unlock` is two steps (clear `holder_`, then give the mutex back), and
 `Condition::wait` gives the mutex up and gets it back without touching `holder_`.
 Thread identifiers are positive; 0 in `owner` or `holder` means nobody.
*/
module MutexLocks {
  import opened Conditions

  datatype Stage = Outside | Locking | Inside | Unlocking | InWait

  datatype Mutex = Mutex(owner: Tid, holder: Tid, stages: map<Tid, Stage>) {
    function At(t: Tid): Stage { if t in stages then stages[t] else Outside }

    function Move(t: Tid, to: Stage): Mutex { this.(stages := stages[t := to]) }

    /** `isLockedbyThisThread` called by thread `t`. */
    predicate IsLockedBy(t: Tid) { holder == t }
  }

  datatype Action =
    | Acquire(t: Tid) | SetHolder(t: Tid)        // lock()
    | ClearHolder(t: Tid) | Release(t: Tid)      // unlock()
    | GiveUp(t: Tid) | Reacquire(t: Tid)         // Condition::wait()

  const Init := Mutex(0, 0, map[])

  predicate Enabled(s: Mutex, a: Action) {
    && a.t > 0
    && match a
       case Acquire(t) => s.At(t) == Outside && s.owner == 0
       case SetHolder(t) => s.At(t) == Locking
       case ClearHolder(t) => s.At(t) == Inside
       case Release(t) => s.At(t) == Unlocking
       case GiveUp(t) => s.At(t) == Inside
       case Reacquire(t) => s.At(t) == InWait && s.owner == 0
  }

  function Next(s: Mutex, a: Action): Mutex
    requires Enabled(s, a)
  {
    match a
    case Acquire(t) => s.Move(t, Locking).(owner := t)
    case SetHolder(t) => s.Move(t, Inside).(holder := t)
    case ClearHolder(t) => s.Move(t, Unlocking).(holder := 0)
    case Release(t) => s.Move(t, Outside).(owner := 0)
    case GiveUp(t) => s.Move(t, InWait).(owner := 0)
    case Reacquire(t) => s.Move(t, Inside).(owner := t)
  }

  /** A run picks any action at each point; picking a disabled one changes nothing. */
  function Step(s: Mutex, a: Action): Mutex { if Enabled(s, a) then Next(s, a) else s }

  function Run(s: Mutex, acts: seq<Action>): Mutex
    decreases |acts|
  {
    if acts == [] then s else Run(Step(s, acts[0]), acts[1..])
  }

  /** The thread has the pthread mutex. */
  predicate Owns(s: Mutex, t: Tid) { s.At(t) == Locking || s.At(t) == Inside || s.At(t) == Unlocking }

  /** The thread is between the end of its `lock` and the start of its `unlock`. */
  predicate Holds(s: Mutex, t: Tid) { s.At(t) == Inside || s.At(t) == InWait }

  ghost predicate Inv(s: Mutex) {
    && (forall t :: t > 0 ==> (Owns(s, t) <==> s.owner == t))
    && (s.holder != 0 ==> Holds(s, s.holder))
    && s.At(0) == Outside
  }

  lemma StepKeepsInv(s: Mutex, a: Action)
    requires Inv(s) && Enabled(s, a)
    ensures Inv(Next(s, a))
  {
    var s' := Next(s, a);
    assert s'.At(a.t) == s'.stages[a.t];
    forall t | t > 0 ensures Owns(s', t) <==> s'.owner == t {
      assert t != a.t ==> s'.At(t) == s.At(t);
      assert Owns(s, t) <==> s.owner == t;
      assert Owns(s, a.t) <==> s.owner == a.t;
    }
  }

  lemma {:induction false} RunKeepsInv(s: Mutex, acts: seq<Action>)
    requires Inv(s)
    ensures Inv(Run(s, acts))
    decreases |acts|
  {
    if acts == [] {
    } else {
      if Enabled(s, acts[0]) { StepKeepsInv(s, acts[0]); }
      RunKeepsInv(Step(s, acts[0]), acts[1..]);
    }
  }

  /** Over every run: the mutex excludes, a non-zero `holder_` names a thread between its `lock` and
      its `unlock`, a running thread for which `isLockedbyThisThread` is true owns the mutex, and
      `holder_` is 0 once nobody is inside (the destructor's assertion). */
  lemma HolderIsSound(acts: seq<Action>)
    ensures var s := Run(Init, acts);
      && (forall t, u :: t > 0 && u > 0 && Owns(s, t) && Owns(s, u) ==> t == u)
      && (s.holder != 0 ==> Holds(s, s.holder))
      && (forall t :: t > 0 && s.IsLockedBy(t) && s.At(t) != InWait ==> Owns(s, t))
      && ((forall t :: s.At(t) == Outside) ==> s.holder == 0)
  {
    RunKeepsInv(Init, acts);
  }

  /** While a thread owns the mutex no other thread can make a step, so that the two steps of `lock`
      and of `unlock` are never separated. */
  lemma OnlyTheOwnerMoves(acts: seq<Action>, a: Action)
    ensures var s := Run(Init, acts); s.owner != 0 && Enabled(s, a) ==> a.t == s.owner
  {
    RunKeepsInv(Init, acts);
    assert Owns(Run(Init, acts), a.t) ==> Run(Init, acts).owner == a.t;
  }

  // ---------------------------------------------------------------- when assertLocked is right

  /** Some thread executes an assignment to `holder_`, in `lock` or `unlock`. */
  predicate Writes(s: Mutex, acts: seq<Action>)
    decreases |acts|
  {
    acts != [] &&
    ((Enabled(s, acts[0]) && (acts[0].SetHolder? || acts[0].ClearHolder?)) || Writes(Step(s, acts[0]), acts[1..]))
  }

  /** Thread `t` begins an `unlock`. */
  predicate Unlocks(s: Mutex, acts: seq<Action>, t: Tid)
    decreases |acts|
  {
    acts != [] &&
    ((Enabled(s, acts[0]) && acts[0] == ClearHolder(t)) || Unlocks(Step(s, acts[0]), acts[1..], t))
  }

  lemma StepOfHolder(s: Mutex, a: Action, t: Tid)
    requires Inv(s) && t > 0 && Holds(s, t) && Enabled(s, a) && a != ClearHolder(t)
    ensures var s' := Next(s, a);
      && Holds(s', t)
      && (s'.holder == t <==> s.holder == t && !a.SetHolder? && !a.ClearHolder?)
  {
    assert Owns(s, a.t) <==> s.owner == a.t;
    assert Owns(s, t) <==> s.owner == t;
  }

  /** Between its `lock` and its `unlock`, `holder_` goes on naming a thread until somebody assigns it. */
  lemma {:induction false} HolderUntilWritten(s: Mutex, acts: seq<Action>, t: Tid)
    requires Inv(s) && t > 0 && Holds(s, t) && !Unlocks(s, acts, t)
    ensures Holds(Run(s, acts), t)
    ensures Run(s, acts).holder == t <==> s.holder == t && !Writes(s, acts)
    decreases |acts|
  {
    if acts == [] {
    } else {
      if Enabled(s, acts[0]) {
        StepKeepsInv(s, acts[0]);
        StepOfHolder(s, acts[0], t);
      }
      HolderUntilWritten(Step(s, acts[0]), acts[1..], t);
    }
  }

  lemma {:induction false} AwayDoesNotUnlock(s: Mutex, during: seq<Action>, t: Tid)
    requires s.At(t) == InWait && forall i :: 0 <= i < |during| ==> during[i] != Reacquire(t)
    ensures !Unlocks(s, during, t) && Run(s, during).At(t) == InWait
    decreases |during|
  {
    if during == [] {
    } else {
      AwayDoesNotUnlock(Step(s, during[0]), during[1..], t);
    }
  }

  /** One `wait` of thread `t`, which comes after any run `before` and lasts over any steps `during` of the
      other threads: back in the guard, `t` passes `assertLocked` if and only if it did before and nobody
      assigned `holder_` meanwhile. Others may come back from their own waits and wait again. */
  lemma AssertLockedAfterWaitIff(before: seq<Action>, t: Tid, during: seq<Action>)
    requires Enabled(Run(Init, before), GiveUp(t))
    requires forall i :: 0 <= i < |during| ==> during[i] != Reacquire(t)
    requires Enabled(Run(Next(Run(Init, before), GiveUp(t)), during), Reacquire(t))
    ensures var s0 := Run(Init, before); var s1 := Next(s0, GiveUp(t));
      var back := Next(Run(s1, during), Reacquire(t));
      back.At(t) == Inside && (back.IsLockedBy(t) <==> s0.IsLockedBy(t) && !Writes(s1, during))
  {
    var s0 := Run(Init, before);
    var s1 := Next(s0, GiveUp(t));
    RunKeepsInv(Init, before);
    StepKeepsInv(s0, GiveUp(t));
    AwayDoesNotUnlock(s1, during, t);
    HolderUntilWritten(s1, during, t);
  }

  /** One guard of thread `t`, with any number of waits inside: from its `lock` to its `unlock` it passes
      `assertLocked` at exactly those points before which nobody else locked or unlocked. */
  lemma AssertLockedInGuardIff(before: seq<Action>, t: Tid, since: seq<Action>)
    requires Enabled(Run(Init, before), SetHolder(t))
    requires !Unlocks(Next(Run(Init, before), SetHolder(t)), since, t)
    ensures var s1 := Next(Run(Init, before), SetHolder(t)); var s := Run(s1, since);
      Holds(s, t) && (s.IsLockedBy(t) <==> !Writes(s1, since))
  {
    RunKeepsInv(Init, before);
    StepKeepsInv(Run(Init, before), SetHolder(t));
    HolderUntilWritten(Next(Run(Init, before), SetHolder(t)), since, t);
  }

  ghost predicate NobodyWaited(s: Mutex) {
    && (forall t :: s.At(t) != InWait)
    && (forall t :: s.At(t) == Inside ==> s.holder == t)
  }

  lemma StepWithoutWait(s: Mutex, a: Action)
    requires Inv(s) && NobodyWaited(s) && Enabled(s, a) && !a.GiveUp?
    ensures NobodyWaited(Next(s, a))
  {
    var s' := Next(s, a);
    forall t ensures s'.At(t) != InWait && (s'.At(t) == Inside ==> s'.holder == t) {
      assert s.At(t) != InWait;
      assert t > 0 ==> (Owns(s, t) <==> s.owner == t);
      assert Owns(s, a.t) <==> s.owner == a.t;
    }
  }

  lemma {:induction false} RunWithoutWait(s: Mutex, acts: seq<Action>)
    requires Inv(s) && NobodyWaited(s)
    requires forall i :: 0 <= i < |acts| ==> !acts[i].GiveUp?
    ensures NobodyWaited(Run(s, acts))
    decreases |acts|
  {
    if acts == [] {
    } else {
      if Enabled(s, acts[0]) {
        StepKeepsInv(s, acts[0]);
        StepWithoutWait(s, acts[0]);
      }
      RunWithoutWait(Step(s, acts[0]), acts[1..]);
    }
  }

  /** Without `wait`, whoever is inside the guard passes `assertLocked`. */
  lemma AssertLockedHoldsWithoutWait(acts: seq<Action>, t: Tid)
    requires forall i :: 0 <= i < |acts| ==> !acts[i].GiveUp?
    requires Run(Init, acts).At(t) == Inside
    ensures Run(Init, acts).IsLockedBy(t)
  {
    RunWithoutWait(Init, acts);
  }

  /** With `wait` it can fail: thread 1 waits, thread 2 locks and unlocks, thread 1 comes back. */
  lemma AssertLockedCanFailAfterWait()
    ensures var s := Run(Run(Run(Init, [Acquire(1), SetHolder(1), GiveUp(1)]),
                             [Acquire(2), SetHolder(2)]), [ClearHolder(2), Release(2), Reacquire(1)]);
      s.At(1) == Inside && Owns(s, 1) && !s.IsLockedBy(1)
  {
    RunThree(Init, Acquire(1), SetHolder(1), GiveUp(1));
    var s := Mutex(0, 1, map[1 := InWait]);
    assert Run(Init, [Acquire(1), SetHolder(1), GiveUp(1)]) == s;
    RunTwo(s, Acquire(2), SetHolder(2));
    var s' := Mutex(2, 2, map[1 := InWait, 2 := Inside]);
    assert Run(s, [Acquire(2), SetHolder(2)]) == s';
    RunThree(s', ClearHolder(2), Release(2), Reacquire(1));
  }

  lemma RunTwo(s: Mutex, a: Action, b: Action)
    requires Enabled(s, a) && Enabled(Next(s, a), b)
    ensures Run(s, [a, b]) == Next(Next(s, a), b)
  {
    assert [a, b][1..] == [b];
    assert Run(Next(s, a), [b]) == Run(Next(Next(s, a), b), []);
  }

  lemma RunThree(s: Mutex, a: Action, b: Action, c: Action)
    requires Enabled(s, a) && Enabled(Next(s, a), b) && Enabled(Next(Next(s, a), b), c)
    ensures Run(s, [a, b, c]) == Next(Next(Next(s, a), b), c)
  {
    assert [a, b, c][1..] == [b, c];
    RunTwo(Next(s, a), b, c);
  }

  class MutexLock {
    var owner: Tid               // mutex_
    var holder: Tid              // holder_
    ghost var stages: map<Tid, Stage>

    ghost function State(): Mutex
      reads this
    {
      Mutex(owner, holder, stages)
    }

    ghost predicate Valid()
      reads this
    {
      Inv(State())
    }

    constructor ()
      ensures Valid() && State() == Init
    {
      owner, holder, stages := 0, 0, map[];
    }

    /** `pthread_mutex_lock` getting the mutex. */
    method Acquire(t: Tid)
      requires Valid() && Enabled(State(), Action.Acquire(t))
      modifies this
      ensures Valid() && State() == Next(old(State()), Action.Acquire(t))
      ensures owner == t && holder == old(holder)
    {
      StepKeepsInv(State(), Action.Acquire(t));
      owner, stages := t, stages[t := Locking];
    }

    /** The assignment to `holder_` in `lock`. */
    method SetHolder(t: Tid)
      requires Valid() && Enabled(State(), Action.SetHolder(t))
      modifies this
      ensures Valid() && State() == Next(old(State()), Action.SetHolder(t))
      ensures holder == t && owner == old(owner)
    {
      StepKeepsInv(State(), Action.SetHolder(t));
      holder, stages := t, stages[t := Inside];
    }

    /** The assignment to `holder_` in `unlock`. */
    method ClearHolder(t: Tid)
      requires Valid() && Enabled(State(), Action.ClearHolder(t))
      modifies this
      ensures Valid() && State() == Next(old(State()), Action.ClearHolder(t))
      ensures holder == 0 && owner == old(owner)
    {
      StepKeepsInv(State(), Action.ClearHolder(t));
      holder, stages := 0, stages[t := Unlocking];
    }

    /** `pthread_mutex_unlock`. */
    method Release(t: Tid)
      requires Valid() && Enabled(State(), Action.Release(t))
      modifies this
      ensures Valid() && State() == Next(old(State()), Action.Release(t))
      ensures owner == 0 && holder == old(holder)
    {
      StepKeepsInv(State(), Action.Release(t));
      owner, stages := 0, stages[t := Outside];
    }

    /** `lock`, from the point where the mutex is free. */
    method Lock(t: Tid)
      requires Valid() && Enabled(State(), Action.Acquire(t))
      modifies this
      ensures Valid() && State() == Run(old(State()), [Action.Acquire(t), Action.SetHolder(t)])
      ensures owner == holder == t
    {
      Acquire(t);
      SetHolder(t);
      RunTwo(old(State()), Action.Acquire(t), Action.SetHolder(t));
    }

    method Unlock(t: Tid)
      requires Valid() && Enabled(State(), Action.ClearHolder(t))
      modifies this
      ensures Valid() && State() == Run(old(State()), [Action.ClearHolder(t), Action.Release(t)])
      ensures owner == holder == 0
    {
      ClearHolder(t);
      Release(t);
      RunTwo(old(State()), Action.ClearHolder(t), Action.Release(t));
    }

    /** `pthread_cond_wait` on this mutex, up to the point where the thread is blocked. */
    method BeginWait(t: Tid)
      requires Valid() && Enabled(State(), GiveUp(t))
      modifies this
      ensures Valid() && State() == Next(old(State()), GiveUp(t))
      ensures owner == 0 && holder == old(holder)
    {
      StepKeepsInv(State(), GiveUp(t));
      owner, stages := 0, stages[t := InWait];
    }

    /** `pthread_cond_wait` getting the mutex back; `holder` keeps whatever value it has. */
    method EndWait(t: Tid)
      requires Valid() && Enabled(State(), Reacquire(t))
      modifies this
      ensures Valid() && State() == Next(old(State()), Reacquire(t))
      ensures owner == t && holder == old(holder)
    {
      StepKeepsInv(State(), Reacquire(t));
      owner, stages := t, stages[t := Inside];
    }

    /** A thread that is told yes is between its `lock` and its `unlock`, and owns the mutex unless it is
        blocked in `wait`. */
    method IsLockedByThisThread(t: Tid) returns (b: bool)
      requires Valid() && t > 0
      ensures b <==> State().IsLockedBy(t)
      ensures b ==> Holds(State(), t) && (State().At(t) != InWait ==> owner == t)
    {
      assert Owns(State(), t) <==> owner == t;
      b := holder == t;
    }
  }
}
