/**
 * The polling hook: one interval timer that exists exactly while polling is enabled,
 * restarted whenever `enabled`, `interval` or the callback changes, and cleared on
 * unmount. Timers are a map from timer id to what they call and how often; the
 * callback is an opaque token compared by identity, as React compares dependencies.
 */
module UsePolling {
  import opened Wrappers

  datatype Timer<C> = Timer(callback: C, interval: int)

  /** The dependency list of the polling effect. */
  datatype Deps<C> = Deps(enabled: bool, interval: int, onPoll: C)

  class Poller<C(==)> {
    /** `intervalRef.current`. */
    var intervalRef: Option<nat>
    /** The live `setInterval` timers of this hook. */
    var timers: map<nat, Timer<C>>
    var nextId: nat
    /** The dependencies of the last effect run; `None` before the first. */
    var deps: Option<Deps<C>>
    /** Whether the last effect run returned its cleanup function. */
    var hasCleanup: bool
    var mounted: bool

    /**
     * While mounted: a timer exists exactly when the last run was enabled, it is the
     * one the ref holds, and it calls the latest callback at the latest interval.
     * After unmount: no timer is left.
     */
    ghost predicate Valid()
      reads this
    {
      (forall id :: id in timers ==> id < nextId) &&
      (mounted ==>
        (hasCleanup <==> intervalRef.Some?) &&
        (intervalRef.None? ==> timers == map[]) &&
        (intervalRef.Some? ==> timers.Keys == {intervalRef.value}) &&
        (deps.None? ==> intervalRef.None?) &&
        (deps.Some? ==>
          (deps.value.enabled <==> intervalRef.Some?) &&
          (intervalRef.Some? ==>
            timers[intervalRef.value] == Timer(deps.value.onPoll, deps.value.interval)))) &&
      (!mounted ==> timers == map[])
    }

    /** Whether some timer is live. */
    function Polling(): (b: bool)
      reads this
      ensures b <==> exists id :: id in timers
    {
      if timers == map[] then false
      else
        var id :| id in timers;
        true
    }

    /** What a tick of timer `id` calls: only a live timer ticks, and it calls the latest callback. */
    function Fire(id: nat): (r: Option<C>)
      reads this
      requires Valid()
      ensures r.Some? <==> id in timers
      ensures r.Some? ==> mounted && deps.Some? && deps.value.enabled && r.value == deps.value.onPoll
    {
      if id in timers then Some(timers[id].callback) else None
    }

    constructor ()
      ensures Valid() && mounted
      ensures deps == None && timers == map[] && intervalRef == None
    {
      intervalRef := None;
      timers := map[];
      nextId := 0;
      deps := None;
      hasCleanup := false;
      mounted := true;
    }

    /** `setInterval`: a fresh timer id. */
    method SetInterval(callback: C, interval: int) returns (id: nat)
      modifies this
      ensures id == old(nextId) && nextId == old(nextId) + 1
      ensures timers == old(timers)[id := Timer(callback, interval)]
      ensures intervalRef == old(intervalRef) && deps == old(deps)
      ensures hasCleanup == old(hasCleanup) && mounted == old(mounted)
    {
      id := nextId;
      nextId := nextId + 1;
      timers := timers[id := Timer(callback, interval)];
    }

    /** `if (intervalRef.current) clearInterval(intervalRef.current)`. */
    method ClearRefTimer()
      modifies this
      ensures old(intervalRef).Some? ==> timers == old(timers) - {old(intervalRef).value}
      ensures old(intervalRef).None? ==> timers == old(timers)
      ensures intervalRef == old(intervalRef) && deps == old(deps) && nextId == old(nextId)
      ensures hasCleanup == old(hasCleanup) && mounted == old(mounted)
    {
      if intervalRef.Some? {
        ClearInterval(intervalRef.value);
      }
    }

    /** The same, followed by `intervalRef.current = null`. */
    method StopRefTimer()
      modifies this
      ensures old(intervalRef).Some? ==> timers == old(timers) - {old(intervalRef).value}
      ensures old(intervalRef).None? ==> timers == old(timers)
      ensures intervalRef == None && deps == old(deps) && nextId == old(nextId)
      ensures hasCleanup == old(hasCleanup) && mounted == old(mounted)
    {
      if intervalRef.Some? {
        ClearInterval(intervalRef.value);
        intervalRef := None;
      }
    }

    /** `clearInterval`. */
    method ClearInterval(id: nat)
      modifies this
      ensures timers == old(timers) - {id}
      ensures intervalRef == old(intervalRef) && deps == old(deps) && nextId == old(nextId)
      ensures hasCleanup == old(hasCleanup) && mounted == old(mounted)
    {
      timers := timers - {id};
    }

    /**
     * The effect after a render with these dependencies. It runs only when they
     * changed, first running the previous run's cleanup; an enabled run starts a new
     * timer, a disabled run clears any timer the ref still holds.
     */
    method Render(enabled: bool, interval: int, onPoll: C)
      requires Valid() && mounted
      modifies this
      ensures Valid() && mounted
      ensures deps == Some(Deps(enabled, interval, onPoll))
      ensures Polling() <==> enabled
      ensures old(deps) == deps ==> timers == old(timers) && intervalRef == old(intervalRef)
      ensures enabled && old(deps) != deps ==>
        intervalRef.Some? && intervalRef.value !in old(timers) &&
        timers == map[intervalRef.value := Timer(onPoll, interval)]
      ensures !enabled ==> timers == map[] && intervalRef == None
    {
      var next := Deps(enabled, interval, onPoll);
      if deps == Some(next) {
        return;
      }
      if hasCleanup {
        StopRefTimer();
        hasCleanup := false;
      }
      if enabled {
        var id := SetInterval(onPoll, interval);
        intervalRef := Some(id);
        hasCleanup := true;
      } else {
        StopRefTimer();
      }
      deps := Some(next);
      assert Polling() <==> enabled by {
        if enabled {
          assert intervalRef.value in timers;
        }
      }
    }

    /** Unmount: the polling effect's cleanup, then the unmount-only effect's cleanup. */
    method Unmount()
      requires Valid() && mounted
      modifies this
      ensures Valid() && !mounted
      ensures timers == map[] && !Polling()
    {
      if hasCleanup {
        StopRefTimer();
        hasCleanup := false;
      }
      ClearRefTimer();
      mounted := false;
    }
  }

  /** However the dependencies change, at most one interval is ever live. */
  lemma AtMostOneTimer<C>(p: Poller<C>)
    requires p.Valid()
    ensures |p.timers.Keys| <= 1
  {
    if p.mounted && p.intervalRef.Some? {
      assert p.timers.Keys == {p.intervalRef.value};
    }
  }
}
