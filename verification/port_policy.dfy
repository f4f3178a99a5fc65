/**
 * The `findPort` step that Project.js, Mockstar.js and Whistle.js share: a fixed port is kept as it
 * is; otherwise the first free port from 9528 that no lease holds is taken and leased to the run.
 */
module PortPolicy {
  import opened Wrappers
  import opened Js
  import opened LeaseStore
  import Port

  /** Where the stages start looking: they pass 9528 explicitly. */
  const SearchStart: int := 9528

  /** The port a stage ends up with and the lease cache after the step. */
  datatype Allocation = Allocation(port: int, cache: Option<Cache>)

  /**
   * A failed step: its error, and the port the stage holds afterwards. The found port is assigned
   * to the stage before the lease is written, so a lease write that throws leaves the stage on the
   * found port; a failed search leaves the port as it was.
   */
  datatype Refusal = Refusal(error: Thrown, port: int)

  /**
   * `findPort` for the stage leasing under `name` in run `seqId`, with `port` the stage's current
   * port (0 for none). The lease is saved with no `dwtPath`, because the record has none. A search
   * whose RangeError escapes uncaught is reported as the step's rejection with that RangeError.
   */
  function FindPort(name: string, port: int, seqId: string, now: int, cache: Option<Cache>, probe: int -> bool)
    : (r: Result<Allocation, Refusal>)
    requires cache.Some? ==> Valid(cache.value)
    ensures r.Success? && r.value.cache.Some? ==> Valid(r.value.cache.value)
    ensures r.Success? ==> r.value.port != 0 && (port == 0 ==> SearchStart <= r.value.port <= Port.MaxPort)
    ensures r.Failure? ==> port == 0 && (r.error.port == 0 || SearchStart <= r.error.port <= Port.MaxPort)
  {
    if port != 0 then Success(Allocation(port, cache))
    else
      var used := GetUsedPort(cache);
      var found := Port.FindAvailablePort(Some(SearchStart), Some(used), probe);
      if found.Uncaught? then Failure(Refusal(Port.BadPort(found.port), port))
      else if found.result.Failure? then Failure(Refusal(found.result.error, port))
      else
        var saved := SaveUsedPort(name, found.result.value, seqId, None, now, cache);
        if saved.Failure? then Failure(Refusal(saved.error, found.result.value))
        else Success(Allocation(found.result.value, Some(saved.value)))
  }

  /** A nonzero port is kept, with no search and no lease. */
  lemma FixedPortKept(name: string, port: int, seqId: string, now: int, cache: Option<Cache>, probe: int -> bool)
    requires cache.Some? ==> Valid(cache.value)
    requires port != 0
    ensures FindPort(name, port, seqId, now, cache, probe) == Success(Allocation(port, cache))
  {
  }

  /**
   * Without a port, a successful step takes the first port from 9528 on that no lease holds and the
   * probe accepts, and appends a lease `{name, port}` to the run's entry, leaving every other entry alone.
   */
  lemma AllocatedPortIsFreshAndLeased(name: string, seqId: string, now: int, cache: Option<Cache>, probe: int -> bool)
    requires cache.Some? ==> Valid(cache.value)
    requires FindPort(name, 0, seqId, now, cache, probe).Success?
    ensures var a := FindPort(name, 0, seqId, now, cache, probe).value;
      && SearchStart <= a.port <= Port.MaxPort && probe(a.port)
      && a.port !in GetUsedPort(cache)
      && Port.AllRefused(SearchStart, a.port, GetUsedPort(cache), probe)
      && a.cache.Some?
      && a.port in GetUsedPort(a.cache)
      && seqId in a.cache.value.entries
      && a.cache.value.entries[seqId].list == Some(PriorLeases(Loaded(cache), seqId) + [Lease(name, a.port, None)])
      && a.cache.value.entries - {seqId} == Loaded(cache).entries - {seqId}
  {
    var used := GetUsedPort(cache);
    var p := Port.FindAvailablePort(Some(SearchStart), Some(used), probe).result.value;
    SavedPortIsUsed(name, p, seqId, None, now, cache);
  }

  /**
   * Without a port, the step fails exactly when the search or the lease write fails, with that error:
   * no free port, or a candidate past 65535 that `listen` refuses with a RangeError. A failed search
   * leaves the stage without a port; a failed lease write leaves it on the port the search found.
   */
  lemma AllocationFailures(name: string, seqId: string, now: int, cache: Option<Cache>, probe: int -> bool)
    requires cache.Some? ==> Valid(cache.value)
    ensures var r := FindPort(name, 0, seqId, now, cache, probe);
      var found := Port.FindAvailablePort(Some(SearchStart), Some(GetUsedPort(cache)), probe);
      && (found.Uncaught? ==> r == Failure(Refusal(Port.BadPort(found.port), 0)) && found.port > Port.MaxPort)
      && (found.Settled? && found.result.Failure? ==>
            && r == Failure(Refusal(found.result.error, 0))
            && (|| found.result.error == Error(Port.NoPortMessage)
                || found.result.error == Port.BadPort(Port.SkipFrom(GetUsedPort(cache), SearchStart))))
      && (found.Settled? && found.result.Success? ==>
            && (r.Failure? <==> SaveUsedPort(name, found.result.value, seqId, None, now, cache).Failure?)
            && (r.Failure? ==>
                  r == Failure(Refusal(SaveUsedPort(name, found.result.value, seqId, None, now, cache).error, found.result.value))))
  {
  }

  /** Two stages allocating one after the other, on the cache the first one left, never get the same port. */
  lemma SuccessiveAllocationsDiffer(n1: string, n2: string, seqId: string, now1: int, now2: int,
                                    cache: Option<Cache>, probe1: int -> bool, probe2: int -> bool)
    requires cache.Some? ==> Valid(cache.value)
    requires FindPort(n1, 0, seqId, now1, cache, probe1).Success?
    requires FindPort(n2, 0, seqId, now2, FindPort(n1, 0, seqId, now1, cache, probe1).value.cache, probe2).Success?
    ensures FindPort(n1, 0, seqId, now1, cache, probe1).value.port
         != FindPort(n2, 0, seqId, now2, FindPort(n1, 0, seqId, now1, cache, probe1).value.cache, probe2).value.port
  {
    var a := FindPort(n1, 0, seqId, now1, cache, probe1).value;
    AllocatedPortIsFreshAndLeased(n1, seqId, now1, cache, probe1);
    AllocatedPortIsFreshAndLeased(n2, seqId, now2, a.cache, probe2);
  }
}
