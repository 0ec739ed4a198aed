/** A `useRef` holding a `setTimeout` handle, with `clearTimeout(ref.current)`
    and `ref.current = setTimeout(...)` as the only operations. Elapsed time is
    not modelled: a timer is either armed (it will fire) or not, and firing is
    an explicit step taken by whoever owns the slot. */
module Timers {

  import opened Optional

  datatype TimerSlot = TimerSlot(armed: set<nat>, current: Option<nat>, nextId: nat) {

    /** Every armed timer is the one the ref points at, and handles are fresh. */
    ghost predicate Valid() {
      && (forall id :: id in armed ==> current == Some(id))
      && (current.Some? ==> current.value < nextId)
    }

    /** Some timer is armed and will fire. */
    predicate Pending() {
      armed != {}
    }

    /** `clearTimeout(ref.current)`: cancels the timer the ref points at (a
        handle that already fired is cancelled harmlessly). The ref itself
        keeps the stale handle, as in the source. */
    function Clear(): (r: TimerSlot)
      requires Valid()
      ensures r.Valid() && !r.Pending()
      ensures r.current == current && r.nextId == nextId
    {
      match current
      case None => this
      case Some(id) => this.(armed := armed - {id})
    }

    /** `ref.current = setTimeout(callback, delay)`: arms a new timer with a
        fresh handle and stores its handle in the ref. */
    function Arm(): (r: TimerSlot)
      ensures r.current == Some(nextId) && nextId in r.armed && r.nextId > nextId
      ensures !Pending() && Valid() ==> r.Valid() && r.armed == {nextId}
    {
      TimerSlot(armed + {nextId}, Some(nextId), nextId + 1)
    }

    /** The armed timer (there is at most one) runs its callback; the ref
        keeps pointing at its handle. */
    function Fire(): (r: TimerSlot)
      requires Valid()
      ensures r.Valid() && !r.Pending() && r.current == current
    {
      this.(armed := {})
    }
  }

  /** A ref created by `useRef(null)`. */
  const Idle: TimerSlot := TimerSlot({}, None, 0)

  /** However the slot was driven, at most one timer is armed. */
  lemma AtMostOnePending(t: TimerSlot)
    requires t.Valid()
    ensures |t.armed| <= 1
  {
    if t.current.Some? {
      assert t.armed <= {t.current.value};
      SubsetCardinality(t.armed, {t.current.value});
    } else {
      assert t.armed == {};
    }
  }

  lemma SubsetCardinality(a: set<nat>, b: set<nat>)
    requires a <= b
    ensures |a| <= |b|
  {
    assert b == a + (b - a);
  }

  /** Re-arming after a clear replaces the pending timer rather than adding
      a second one, whatever was pending before. */
  lemma ClearThenArm(t: TimerSlot)
    requires t.Valid()
    ensures t.Clear().Arm().Valid() && t.Clear().Arm().armed == {t.nextId}
    ensures t.Clear().Arm().Pending()
  {
  }
}
