/** The registration of the current FSDB lock holder and the preemption rule over it. */
module WavePreemption {
  import opened Wrappers

  /** The registered holder: its cancel event and its priority. */
  datatype Active<E> = Active(event: E, priority: int)

  /** The event a waiter of this priority sets: a registered holder's, of strictly lower priority. */
  function Victim<E(==)>(active: Option<Active<E>>, waiter: E, priority: int): Option<E> {
    if active.Some? && active.value.event != waiter && active.value.priority < priority
    then Some(active.value.event)
    else None
  }

  /** What is registered after `event` deregisters: another holder's registration stays. */
  function Cleared<E(==)>(active: Option<Active<E>>, event: E): Option<Active<E>> {
    if active.Some? && active.value.event == event then None else active
  }

  /** A call's cancel event. Once set it stays set. */
  class CancelEvent {
    var isSet: bool

    constructor ()
      ensures !isSet
    {
      isSet := false;
    }

    method Set()
      modifies this
      ensures isSet
    {
      isSet := true;
    }
  }

  /** `_FSDB_ACTIVE` with the operations that run under its guard lock. */
  class FsdbRegistry {
    var active: Option<Active<CancelEvent>>

    constructor ()
      ensures active == None
    {
      active := None;
    }

    method PreemptLowerPriority(waiter: CancelEvent, priority: int)
      modifies if active.Some? then {active.value.event} else {}
      ensures Victim(active, waiter, priority).Some? ==> Victim(active, waiter, priority).value.isSet
      ensures active.Some? && Victim(active, waiter, priority).None? ==>
        active.value.event.isSet == old(active.value.event.isSet)
    {
      if active.Some? && active.value.event != waiter && active.value.priority < priority {
        active.value.event.Set();
      }
    }

    method SetActive(event: CancelEvent, priority: int)
      modifies this
      ensures active == Some(Active(event, priority))
    {
      active := Some(Active(event, priority));
    }

    method ClearActive(event: CancelEvent)
      modifies this
      ensures active == Cleared(old(active), event)
    {
      if active.Some? && active.value.event == event {
        active := None;
      }
    }
  }
}
