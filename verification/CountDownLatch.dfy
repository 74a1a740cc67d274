/** `CountDownLatch`: one atomic step per stretch from lock or wake-up to wait or unlock. */
module CountDownLatches {
  import opened Conditions

  /** `initial`, `downs` and `passed` (the threads `wait` has returned to) are history. */
  datatype Latch = Latch(count: int, waiters: Waiters, initial: int, downs: nat, passed: set<Tid>)

  datatype Action = CountDown | Wait(t: Tid) | Resume(t: Tid) | Rouse(t: Tid)

  function Init(count: int): Latch { Latch(count, NoWaiters, count, 0, {}) }

  predicate Enabled(s: Latch, a: Action) {
    match a
    case CountDown => true
    case Wait(t) => !s.waiters.Has(t)
    case Resume(t) => t in s.waiters.woken
    case Rouse(t) => t in s.waiters.asleep
  }

  function DoCountDown(s: Latch): Latch {
    var c := s.count - 1;
    s.(count := c, downs := s.downs + 1,
       waiters := if c == 0 then s.waiters.NotifyAll() else s.waiters)
  }

  /** The loop test of `wait`: sleep or return. */
  function Test(s: Latch, t: Tid): Latch {
    if s.count > 0 then s.(waiters := s.waiters.Sleep(t)) else s.(passed := s.passed + {t})
  }

  function Next(s: Latch, a: Action): Latch
    requires Enabled(s, a)
  {
    match a
    case CountDown => DoCountDown(s)
    case Wait(t) => Test(s, t)
    case Resume(t) => Test(s.(waiters := s.waiters.Resume(t)), t)
    case Rouse(t) => s.(waiters := s.waiters.Rouse(t))
  }

  /** A run picks any action at each point; picking a disabled one changes nothing. */
  function Run(s: Latch, acts: seq<Action>): Latch
    decreases |acts|
  {
    if acts == [] then s
    else Run(if Enabled(s, acts[0]) then Next(s, acts[0]) else s, acts[1..])
  }

  /** The actions of a run that were really executed. */
  function Executed(s: Latch, acts: seq<Action>): seq<Action>
    decreases |acts|
  {
    if acts == [] then []
    else if Enabled(s, acts[0]) then [acts[0]] + Executed(Next(s, acts[0]), acts[1..])
    else Executed(s, acts[1..])
  }

  function Downs(acts: seq<Action>): nat {
    if acts == [] then 0 else (if acts[0].CountDown? then 1 else 0) + Downs(acts[1..])
  }

  ghost predicate Inv(s: Latch) {
    && s.waiters.Valid()
    && s.count == s.initial - s.downs
    && (s.count <= 0 ==> s.waiters.asleep == {})
    && (s.passed != {} ==> s.downs >= s.initial)
  }

  lemma {:induction false} RunKeepsInv(s: Latch, acts: seq<Action>)
    requires Inv(s)
    ensures Inv(Run(s, acts)) && Run(s, acts).initial == s.initial
    decreases |acts|
  {
    if acts == [] {
    } else {
      RunKeepsInv(if Enabled(s, acts[0]) then Next(s, acts[0]) else s, acts[1..]);
    }
  }

  lemma {:induction false} RunCountsDowns(s: Latch, acts: seq<Action>)
    ensures Run(s, acts).downs == s.downs + Downs(Executed(s, acts))
    decreases |acts|
  {
    if acts == [] {
    } else {
      RunCountsDowns(if Enabled(s, acts[0]) then Next(s, acts[0]) else s, acts[1..]);
    }
  }

  /** Whoever has called `wait` is still in it or has returned. */
  predicate Served(s: Latch, t: Tid) { t in s.passed || s.waiters.Has(t) }

  lemma {:induction false} RunServesCallers(s: Latch, acts: seq<Action>, t: Tid)
    requires Served(s, t) || Wait(t) in Executed(s, acts)
    ensures Served(Run(s, acts), t)
    decreases |acts|
  {
    if acts == [] {
    } else {
      var s' := if Enabled(s, acts[0]) then Next(s, acts[0]) else s;
      assert Served(s, t) || (acts[0] == Wait(t) && Enabled(s, acts[0])) ==> Served(s', t);
      RunServesCallers(s', acts[1..], t);
    }
  }

  /** Safety and no lost wake-up, over every run and also after the count went negative: the count is the
      initial one minus the executed calls of `countDown`; `wait` returns to nobody before `initial` of them,
      and until then whoever has called it is in it; from then on nobody sleeps, and the next step of every
      waiter returns. */
  lemma {:induction false} LatchOpensAtZero(initial: int, acts: seq<Action>)
    ensures var s := Run(Init(initial), acts); var done := Executed(Init(initial), acts);
      && s.count == initial - Downs(done)
      && (Downs(done) < initial ==> s.passed == {})
      && (forall t :: Wait(t) in done ==> t in s.passed || s.waiters.Has(t))
      && (Downs(done) >= initial ==>
            && s.waiters.asleep == {}
            && (forall t :: s.waiters.Has(t) ==>
                  Enabled(s, Resume(t)) && t in Next(s, Resume(t)).passed)
            && (forall t :: !s.waiters.Has(t) ==> t in Next(s, Wait(t)).passed))
  {
    RunKeepsInv(Init(initial), acts);
    RunCountsDowns(Init(initial), acts);
    forall t | Wait(t) in Executed(Init(initial), acts) ensures Served(Run(Init(initial), acts), t) {
      RunServesCallers(Init(initial), acts, t);
    }
  }

  class CountDownLatch {
    var count: int
    var waiters: Waiters
    ghost var initial: int
    ghost var downs: nat
    ghost var passed: set<Tid>

    ghost function State(): Latch
      reads this
    {
      Latch(count, waiters, initial, downs, passed)
    }

    constructor (count: int)
      ensures State() == Init(count)
    {
      this.count := count;
      waiters := NoWaiters;
      initial, downs, passed := count, 0, {};
    }

    method CountDown()
      modifies this
      ensures State() == Next(old(State()), Action.CountDown)
      ensures count == old(count) - 1 && downs == old(downs) + 1 && passed == old(passed)
      ensures waiters == if count == 0 then Waiters({}, old(waiters.woken + waiters.asleep)) else old(waiters)
    {
      count := count - 1;
      if 0 == count {
        waiters := waiters.NotifyAll();
      }
      downs := downs + 1;
    }

    /** One turn of the loop in `wait`, on entry or after a wake-up. */
    method WaitTurn(t: Tid) returns (returned: bool)
      requires t !in waiters.asleep
      modifies this
      ensures old(t in waiters.woken) ==> State() == Next(old(State()), Action.Resume(t))
      ensures old(t !in waiters.woken) ==> State() == Next(old(State()), Action.Wait(t))
      ensures returned <==> old(count) <= 0
      ensures count == old(count) && downs == old(downs)
      ensures waiters == Waiters(old(waiters.asleep) + (if returned then {} else {t}), old(waiters.woken) - {t})
      ensures passed == old(passed) + (if returned then {t} else {})
    {
      if t in waiters.woken {
        waiters := waiters.Resume(t);
      }
      if count > 0 {
        waiters := waiters.Sleep(t);
        returned := false;
      } else {
        passed := passed + {t};
        returned := true;
      }
    }

    /** A wake-up of thread `t` that nobody asked for. */
    method SpuriousWakeup(t: Tid)
      requires t in waiters.asleep
      modifies this`waiters
      ensures State() == Next(old(State()), Action.Rouse(t))
      ensures waiters == Waiters(old(waiters.asleep) - {t}, old(waiters.woken) + {t})
    {
      waiters := waiters.Rouse(t);
    }

    /** Tells how many calls of `countDown` are missing; from 0 down nobody sleeps in `wait`. */
    method GetCount() returns (c: int)
      requires Inv(State())
      ensures c == initial - downs
      ensures c <= 0 ==> waiters.asleep == {}
      ensures c > 0 ==> passed == {}
    {
      c := count;
    }
  }
}
