/**
 * The host's interval timers. Handles are issued in order; a handle is active
 * from `SetInterval` until `ClearInterval` is given it, and only active handles fire.
 */
module Host {
  import opened Optional

  class Scheduler {
    var active: set<nat>
    var issued: nat
    /** The period, in milliseconds, each issued handle was registered with. */
    var periods: map<nat, real>

    /** Every active handle has been issued. */
    ghost predicate Valid()
      reads this
    {
      forall h :: h in active ==> h < issued
    }

    constructor ()
      ensures Valid() && active == {} && issued == 0 && periods == map[]
    {
      active := {};
      issued := 0;
      periods := map[];
    }

    /** Registers a recurring callback every `interval` milliseconds and returns its new handle. */
    method SetInterval(interval: real) returns (handle: nat)
      requires Valid()
      modifies this
      ensures Valid()
      ensures handle == old(issued) && handle !in old(active)
      ensures active == old(active) + {handle} && issued == old(issued) + 1
      ensures periods == old(periods)[handle := interval]
    {
      handle := issued;
      periods := periods[handle := interval];
      active := active + {handle};
      issued := issued + 1;
    }

    /** Cancels a handle; an absent handle or one already cleared changes nothing. */
    method ClearInterval(handle: Option<nat>)
      requires Valid()
      modifies this
      ensures Valid() && issued == old(issued) && periods == old(periods)
      ensures active == if handle.Some? then old(active) - {handle.value} else old(active)
    {
      if handle.Some? {
        active := active - {handle.value};
      }
    }
  }
}
