/**
 * `findAvailablePort` of util/port.js: a first-fit search for a port the OS lets us bind,
 * with the bind attempt (`portIsOccupied`) abstracted as an oracle `probe` on the ports
 * `listen` accepts, 0 to 65535.
 */
module Port {
  import opened Wrappers
  import opened Js
  import Text

  const MaxPort: int := 65535
  const DefaultStart: int := 9528
  const NoPortMessage: string := "can not find available port"

  /** The ports `server.listen(port)` accepts; any other number makes it throw at once. */
  predicate InRange(p: int) {
    0 <= p <= MaxPort
  }

  /** The RangeError (code ERR_SOCKET_BAD_PORT) that `listen` throws for a port outside `0..65535`. */
  function BadPort(p: int): Thrown {
    ErrorObj("RangeError", "options.port should be >= 0 and < 65536. Received " + Text.IntText(p) + ".")
  }

  /**
   * How the promise `findAvailablePort` returns ends: settled, or never, when `listen` threw
   * inside the `'error'` listener of an earlier probe. That exception is not caught by anything,
   * so it ends the process.
   */
  datatype Search = Settled(result: Result<int, Thrown>) | Uncaught(port: int)

  /** The skipped ports at or above `target`: what the skip loop can still step over. */
  function SkipAhead(skipList: seq<int>, target: int): set<int> {
    set p | p in skipList && p >= target
  }

  /** The skip loop: the candidate moves up by one for as long as the skip list holds it, with no upper bound. */
  function SkipFrom(skipList: seq<int>, target: int): (r: int)
    ensures r >= target && r !in skipList
    ensures forall q :: target <= q < r ==> q in skipList
    decreases |SkipAhead(skipList, target)|
  {
    if target in skipList then
      assert target !in SkipAhead(skipList, target + 1);
      assert SkipAhead(skipList, target) == SkipAhead(skipList, target + 1) + {target};
      SkipFrom(skipList, target + 1)
    else target
  }

  /** Every port in `[start, end)` is skipped or refused by the probe. */
  ghost predicate AllRefused(start: int, end: int, skipList: seq<int>, probe: int -> bool) {
    forall q :: start <= q < end ==> q in skipList || !probe(q)
  }

  /**
   * One round of `check()` and what follows it: skip, then bind the candidate. A candidate outside
   * `0..65535` makes `listen` throw: in the first round, run by the promise executor, that rejects
   * the promise; in a later round, run from the listener, it escapes uncaught. Otherwise the round
   * resolves, rejects once the next candidate would exceed 65535, or goes on with the next candidate.
   */
  function SearchFrom(target: int, skipList: seq<int>, probe: int -> bool, first: bool): (r: Search)
    ensures r.Settled? && r.result.Success? ==>
      && InRange(r.result.value) && r.result.value >= target && r.result.value !in skipList
      && probe(r.result.value) && AllRefused(target, r.result.value, skipList, probe)
    ensures r.Settled? && r.result.Failure? ==>
      || (r.result.error == Error(NoPortMessage) && AllRefused(target, MaxPort + 1, skipList, probe))
      || (first && !InRange(SkipFrom(skipList, target)) && r.result.error == BadPort(SkipFrom(skipList, target)))
    ensures r.Uncaught? ==>
      && !InRange(r.port) && r.port >= target && AllRefused(target, r.port, skipList, probe)
      && (first ==> InRange(SkipFrom(skipList, target)) && !probe(SkipFrom(skipList, target)))
    decreases MaxPort + 1 - target
  {
    var candidate := SkipFrom(skipList, target);
    if !InRange(candidate) then
      if first then Settled(Failure(BadPort(candidate))) else Uncaught(candidate)
    else if probe(candidate) then Settled(Success(candidate))
    else if candidate + 1 > MaxPort then Settled(Failure(Error(NoPortMessage)))
    else SearchFrom(candidate + 1, skipList, probe, false)
  }

  /** `findAvailablePort(port = 9528, skipList = [])` */
  function FindAvailablePort(port: Option<int>, skipList: Option<seq<int>>, probe: int -> bool): (r: Search)
    ensures var start, skip := port.GetOr(DefaultStart), skipList.GetOr([]);
      && (r.Settled? && r.result.Success? ==>
            && InRange(r.result.value) && r.result.value >= start && r.result.value !in skip
            && probe(r.result.value) && AllRefused(start, r.result.value, skip, probe))
      && (r.Settled? && r.result.Failure? ==>
            || (r.result.error == Error(NoPortMessage) && AllRefused(start, MaxPort + 1, skip, probe))
            || (!InRange(SkipFrom(skip, start)) && r.result.error == BadPort(SkipFrom(skip, start))))
      && (r.Uncaught? ==>
            && InRange(SkipFrom(skip, start)) && !probe(SkipFrom(skip, start))
            && !InRange(r.port) && AllRefused(start, r.port, skip, probe))
  {
    SearchFrom(port.GetOr(DefaultStart), skipList.GetOr([]), probe, true)
  }

  /** Whenever some port in `[start, 65535]` is neither skipped nor refused, the search finds the first such port. */
  lemma FindsFirstFreePort(start: int, skipList: seq<int>, probe: int -> bool, p: int, first: bool)
    requires 0 <= start <= p <= MaxPort && p !in skipList && probe(p)
    ensures var r := SearchFrom(start, skipList, probe, first);
      r.Settled? && r.result.Success? && r.result.value <= p
  {
  }

  /** A start outside `0..65535` that is not skipped is handed to `listen` as it is, which throws: the promise rejects with the RangeError. */
  lemma OutOfRangeStartRejects(start: int, skipList: seq<int>, probe: int -> bool)
    requires !InRange(start) && start !in skipList
    ensures FindAvailablePort(Some(start), Some(skipList), probe) == Settled(Failure(BadPort(start)))
  {
  }

  /** The skip loop is not bounded: from 65535 with 65535 skipped, the first `listen` gets 65536 and the promise rejects with the RangeError. */
  lemma SkipPastBoundRejects(probe: int -> bool)
    ensures FindAvailablePort(Some(MaxPort), Some([MaxPort]), probe) == Settled(Failure(BadPort(MaxPort + 1)))
  {
    assert SkipFrom([MaxPort], MaxPort + 1) == MaxPort + 1;
  }

  /**
   * After a refused probe the bound is tested before the skip loop, not after it: from 65534, refused,
   * with 65535 skipped, the next round binds 65536 from inside the listener and the RangeError escapes.
   */
  lemma SkipPastBoundEscapes(probe: int -> bool)
    requires !probe(MaxPort - 1)
    ensures FindAvailablePort(Some(MaxPort - 1), Some([MaxPort]), probe) == Uncaught(MaxPort + 1)
  {
    assert SkipFrom([MaxPort], MaxPort - 1) == MaxPort - 1;
    assert SkipFrom([MaxPort], MaxPort + 1) == MaxPort + 1;
    assert SkipFrom([MaxPort], MaxPort) == MaxPort + 1;
    assert SearchFrom(MaxPort, [MaxPort], probe, false) == Uncaught(MaxPort + 1);
  }
}
