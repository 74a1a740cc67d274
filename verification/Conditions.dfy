/**
 Condition variables, as the monitors of this project see them.

 A thread blocked in `Condition::wait` is either asleep or woken: woken means that it was
 notified (or woke up spuriously) but has not got the mutex back yet. `notify` wakes at least
 one sleeper when there is one, and may wake several; which ones is the caller's parameter
 `chosen`, so that a statement about every `chosen` is a statement about every implementation.
*/
module Conditions {

  type Tid = nat

  datatype Waiters = Waiters(asleep: set<Tid>, woken: set<Tid>) {

    predicate Has(t: Tid) { t in asleep || t in woken }

    ghost predicate Valid() { asleep !! woken }

    /** The calling thread gives up the mutex and goes to sleep. */
    function Sleep(t: Tid): Waiters { this.(asleep := asleep + {t}) }

    /** A woken thread gets the mutex back and leaves `wait`. */
    function Resume(t: Tid): Waiters { this.(woken := woken - {t}) }

    /** A legal outcome of one `pthread_cond_signal`. */
    predicate MayWake(chosen: set<Tid>) {
      && chosen <= asleep
      && (asleep != {} ==> chosen != {})
    }

    function Notify(chosen: set<Tid>): Waiters {
      Waiters(asleep - chosen, woken + chosen)
    }

    function NotifyAll(): Waiters { Waiters({}, woken + asleep) }

    /** A spurious wake-up of one sleeper. */
    function Rouse(t: Tid): Waiters { Notify({t}) }

    /** No wake-up is lost: as long as somebody sleeps un-notified, the threads already woken
        are enough for the `work` units on offer. */
    ghost predicate Covers(work: int) { asleep != {} ==> work <= |woken| }

    lemma NotifyCovers(work: int, chosen: set<Tid>)
      requires Valid() && Covers(work) && MayWake(chosen)
      ensures Notify(chosen).Valid() && Notify(chosen).Covers(work + 1)
    {
      assert woken * chosen == {};
      assert |woken + chosen| == |woken| + |chosen|;
    }

    lemma NotifyCounts(chosen: set<Tid>)
      requires Valid() && MayWake(chosen)
      ensures |Notify(chosen).woken| == |woken| + |chosen|
      ensures |Notify(chosen).asleep| == |asleep| - |chosen|
    {
      assert woken * chosen == {};
    }

    lemma NotifyAllCounts()
      requires Valid()
      ensures NotifyAll().Valid() && |NotifyAll().woken| == |woken| + |asleep|
    {
      assert woken * asleep == {};
    }

    lemma RouseCovers(work: int, t: Tid)
      requires Valid() && Covers(work) && t in asleep
      ensures Rouse(t).Valid() && Rouse(t).Covers(work)
    {
    }

    lemma RouseCounts(t: Tid)
      requires Valid() && t in asleep
      ensures |Rouse(t).woken| == |woken| + 1 && |Rouse(t).asleep| == |asleep| - 1
    {
    }

    lemma ResumeCovers(work: int, t: Tid)
      requires Valid() && Covers(work) && t in woken
      ensures Resume(t).Valid() && !Resume(t).Has(t)
      ensures Resume(t).Covers(work - 1) && |Resume(t).woken| == |woken| - 1
    {
    }
  }

  const NoWaiters := Waiters({}, {})
}
