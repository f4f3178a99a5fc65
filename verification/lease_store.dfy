/**
 * The local lease cache of business/local-cache.js: a map from run id (`seqId`) to
 * `{t, dwtPath, list: [{name, port, pid?}]}`, plus `lastUsed<Name>` slots `{port, t}`.
 * Every operation is a pure transformation of the loaded cache; `now` stands for `Date.now()`,
 * and the pids a cleanup would kill are returned instead of killed.
 */
module LeaseStore {
  import opened Wrappers
  import opened Js

  /** Two hours, in milliseconds. */
  const Expire: int := 2 * 60 * 60 * 1000
  const SlotPrefix: string := "lastUsed"

  datatype Lease = Lease(name: string, port: int, pid: Option<int>)

  /** A value of the parsed cache file; every field may be missing. */
  datatype Entry = Entry(t: Option<int>, dwtPath: Option<string>, list: Option<seq<Lease>>, port: Option<int>)

  /** The loaded object: its keys in enumeration order, and its values. */
  datatype Cache = Cache(keys: seq<string>, entries: map<string, Entry>)

  predicate Distinct(s: seq<string>) {
    forall i, j :: 0 <= i < j < |s| ==> s[i] != s[j]
  }

  /** Each key is enumerated exactly once. */
  predicate Valid(c: Cache) {
    Distinct(c.keys) && (forall k :: k in c.keys ==> k in c.entries) && (forall k :: k in c.entries ==> k in c.keys)
  }

  const Empty: Cache := Cache([], map[])

  /** `getCache() || {}`: writers treat an unreadable cache as empty. */
  function Loaded(cache: Option<Cache>): (c: Cache)
    requires cache.Some? ==> Valid(cache.value)
    ensures Valid(c)
    ensures cache.None? ==> c == Empty
  {
    cache.GetOr(Empty)
  }

  /** Assigning an entry to a key: an existing key keeps its place, a new key is enumerated last. */
  function Put(c: Cache, k: string, e: Entry): (r: Cache)
    requires Valid(c)
    ensures Valid(r) && r.entries == c.entries[k := e]
    ensures k in c.entries ==> r.keys == c.keys
    ensures k !in c.entries ==> r.keys == c.keys + [k]
  {
    if k in c.entries then Cache(c.keys, c.entries[k := e]) else Cache(c.keys + [k], c.entries[k := e])
  }

  function RemoveKey(s: seq<string>, k: string): (r: seq<string>)
    ensures forall x :: x in r <==> x in s && x != k
    ensures Distinct(s) ==> Distinct(r)
    ensures k !in s ==> r == s
  {
    if |s| == 0 then []
    else if s[0] == k then
      DistinctTail(s);
      RemoveKey(s[1..], k)
    else
      DistinctTail(s);
      var rest := RemoveKey(s[1..], k);
      assert Distinct(s) ==> s[0] !in s[1..];
      ConsDistinct(s[0], rest);
      [s[0]] + rest
  }

  lemma ConsDistinct(a: string, rest: seq<string>)
    ensures a !in rest && Distinct(rest) ==> Distinct([a] + rest)
  {
    if a !in rest && Distinct(rest) {
      forall i, j | 0 <= i < j < |[a] + rest| ensures ([a] + rest)[i] != ([a] + rest)[j] {
        assert ([a] + rest)[j] == rest[j - 1];
      }
    }
  }

  lemma DistinctTail(s: seq<string>)
    requires |s| > 0
    ensures Distinct(s) ==> Distinct(s[1..])
  {
    if Distinct(s) {
      forall i, j | 0 <= i < j < |s[1..]| ensures s[1..][i] != s[1..][j] {
        assert s[1..][i] == s[i + 1] && s[1..][j] == s[j + 1];
      }
    }
  }

  /** `delete cacheData[k]` */
  function Delete(c: Cache, k: string): (r: Cache)
    requires Valid(c)
    ensures Valid(r) && r.entries == c.entries - {k}
    ensures k !in c.entries ==> r == c
  {
    Cache(RemoveKey(c.keys, k), c.entries - {k})
  }

  // ---------------------------------------------------------------------------------------------
  // Cleanup

  /** The item's pid is truthy and equals `p`. */
  predicate HasPid(l: Lease, p: int) {
    l.pid == Some(p) && p != 0
  }

  /** Some lease of the entry carries the truthy pid `p`. */
  predicate HoldsPid(e: Entry, p: int) {
    e.list.Some? && exists i :: 0 <= i < |e.list.value| && HasPid(e.list.value[i], p)
  }

  /** The truthy pids of a lease list, in list order. */
  function TruthyPids(list: seq<Lease>): (r: seq<int>)
    ensures |r| <= |list|
    ensures forall p :: p in r <==> exists i :: 0 <= i < |list| && HasPid(list[i], p)
  {
    if |list| == 0 then []
    else
      var rest := TruthyPids(list[1..]);
      forall p, i | 1 <= i < |list| && HasPid(list[i], p)
        ensures p in rest
      {
        assert list[1..][i - 1] == list[i];
      }
      if list[0].pid.Some? && list[0].pid.value != 0 then [list[0].pid.value] + rest else rest
  }

  /** What `_cleanTestRecord` hands to `killPids` for an entry: one batch, or none when no pid is truthy. */
  function KillsFor(e: Entry): seq<seq<int>> {
    if e.list.Some? && |e.list.value| > 0 && |TruthyPids(e.list.value)| > 0 then [TruthyPids(e.list.value)] else []
  }

  /** Every pid named by a list of kill batches. */
  function Killed(kills: seq<seq<int>>): set<int> {
    set b, p | b in kills && p in b :: p
  }

  lemma KilledAppend(a: seq<seq<int>>, b: seq<seq<int>>)
    ensures Killed(a + b) == Killed(a) + Killed(b)
  {
    assert forall x :: x in a + b <==> x in a || x in b;
  }

  lemma KillsForPids(e: Entry)
    ensures forall p :: p in Killed(KillsFor(e)) <==> HoldsPid(e, p)
    ensures forall b :: b in KillsFor(e) ==> |b| > 0
  {
    if e.list.Some? && |e.list.value| > 0 && |TruthyPids(e.list.value)| > 0 {
      var b := TruthyPids(e.list.value);
      assert KillsFor(e) == [b];
      assert forall p :: p in Killed([b]) <==> p in b;
    } else {
      assert KillsFor(e) == [];
      assert Killed([]) == {};
      forall p ensures !HoldsPid(e, p) {
        if e.list.Some? {
          assert p !in TruthyPids(e.list.value);
        }
      }
    }
  }

  /** A cleanup's effect on the cache and the `killPids` batches it requests, in order. */
  datatype Swept = Swept(cache: Cache, kills: seq<seq<int>>)

  /**
   * `_cleanTestRecord(key, cacheData)`: asks to kill exactly the truthy pids in the entry's list
   * (and makes no kill request when there are none), then deletes the entry whatever the kill did.
   */
  function CleanTestRecord(key: string, c: Cache): (r: Swept)
    requires Valid(c)
    ensures Valid(r.cache) && r.cache.entries == c.entries - {key}
    ensures |r.kills| <= 1 && forall b :: b in r.kills ==> |b| > 0
    ensures forall p :: p in Killed(r.kills) <==> key in c.entries && HoldsPid(c.entries[key], p)
  {
    if key in c.entries then
      KillsForPids(c.entries[key]);
      Swept(Delete(c, key), KillsFor(c.entries[key]))
    else
      Swept(Delete(c, key), [])
  }

  /** An entry older than the expiry bound; a missing `t` compares as NaN and never expires. */
  predicate Expired(e: Entry, now: int) {
    e.t.Some? && now - e.t.value > Expire
  }

  /** The pids held by entries of `c` that are absent from `r`. */
  ghost predicate KillsRemoved(c: Cache, r: Cache, kills: seq<seq<int>>) {
    forall p :: p in Killed(kills) <==> exists k :: k in c.entries && k !in r.entries && HoldsPid(c.entries[k], p)
  }

  /** The expiry sweep over the entries, visited in the enumeration order `keys`. */
  function Sweep(keys: seq<string>, c: Cache, now: int): (r: Swept)
    requires Valid(c)
    ensures Valid(r.cache)
    ensures forall k :: k in r.cache.entries <==> k in c.entries && !(k in keys && Expired(c.entries[k], now))
    ensures forall k :: k in r.cache.entries ==> r.cache.entries[k] == c.entries[k]
    ensures KillsRemoved(c, r.cache, r.kills)
    ensures forall b :: b in r.kills ==> |b| > 0
    decreases |keys|
  {
    if |keys| == 0 then Swept(c, [])
    else
      var k := keys[0];
      if k in c.entries && Expired(c.entries[k], now) then
        var first := CleanTestRecord(k, c);
        var rest := Sweep(keys[1..], first.cache, now);
        KilledAppend(first.kills, rest.kills);
        Swept(rest.cache, first.kills + rest.kills)
      else
        Sweep(keys[1..], c, now)
  }

  /** How `clean` leaves the cache (`None`: it could not be read and nothing happened) and its kill requests. */
  datatype Cleaned = Cleaned(cache: Option<Cache>, kills: seq<seq<int>>)

  /** An entry `clean` keeps: not the caller's own, and not expired. */
  predicate Survives(seqId: string, k: string, e: Entry, now: int) {
    k != seqId && !Expired(e, now)
  }

  /**
   * `clean(testRecord)`: on an unreadable cache nothing happens. Otherwise the caller's own `seqId`
   * entry is cleaned, then every key (`lastUsed*` slots included) whose `t` is more than two hours
   * old; exactly the truthy pids of the removed entries are killed, and a kill failure changes nothing.
   */
  function Clean(seqId: string, cache: Option<Cache>, now: int): (r: Cleaned)
    requires cache.Some? ==> Valid(cache.value)
    ensures cache.None? ==> r == Cleaned(None, [])
    ensures cache.Some? ==> r.cache.Some? && Valid(r.cache.value)
    ensures cache.Some? ==> forall k :: k in r.cache.value.entries <==>
      k in cache.value.entries && Survives(seqId, k, cache.value.entries[k], now)
    ensures cache.Some? ==> forall k :: k in r.cache.value.entries ==>
      r.cache.value.entries[k] == cache.value.entries[k]
    ensures cache.Some? ==> KillsRemoved(cache.value, r.cache.value, r.kills)
  {
    match cache
    case None => Cleaned(None, [])
    case Some(c) =>
      var own := if seqId in c.entries then CleanTestRecord(seqId, c) else Swept(c, []);
      var swept := Sweep(own.cache.keys, own.cache, now);
      KilledAppend(own.kills, swept.kills);
      Cleaned(Some(swept.cache), own.kills + swept.kills)
  }

  lemma {:induction false} SweepKeepsFresh(keys: seq<string>, c: Cache, now: int)
    requires Valid(c)
    requires forall k :: k in c.entries ==> !Expired(c.entries[k], now)
    ensures Sweep(keys, c, now) == Swept(c, [])
    decreases |keys|
  {
    if |keys| > 0 {
      SweepKeepsFresh(keys[1..], c, now);
    }
  }

  /** At a fixed `now`, a second `clean` removes nothing more and requests no kill. */
  lemma CleanIdempotent(seqId: string, cache: Option<Cache>, now: int)
    requires cache.Some? ==> Valid(cache.value)
    ensures var once := Clean(seqId, cache, now);
      Clean(seqId, once.cache, now) == Cleaned(once.cache, [])
  {
    var once := Clean(seqId, cache, now);
    if cache.Some? {
      var c := once.cache.value;
      assert seqId !in c.entries;
      SweepKeepsFresh(c.keys, c, now);
    }
  }

  // ---------------------------------------------------------------------------------------------
  // Used ports

  /** Some lease of the entry holds port `p`. */
  predicate HoldsPort(e: Entry, p: int) {
    e.list.Some? && exists i :: 0 <= i < |e.list.value| && e.list.value[i].port == p
  }

  function Ports(list: seq<Lease>): (r: seq<int>)
    ensures |r| == |list| && forall i :: 0 <= i < |list| ==> r[i] == list[i].port
    ensures forall p :: p in r <==> exists i :: 0 <= i < |list| && list[i].port == p
  {
    seq(|list|, i requires 0 <= i < |list| => list[i].port)
  }

  /** The ports of every lease of every entry, entry by entry in key order. */
  function PortsOf(keys: seq<string>, m: map<string, Entry>): (r: seq<int>)
    ensures forall p :: p in r <==> exists k :: k in keys && k in m && HoldsPort(m[k], p)
    decreases |keys|
  {
    if |keys| == 0 then []
    else
      var k := keys[0];
      var here := if k in m && m[k].list.Some? then Ports(m[k].list.value) else [];
      var rest := PortsOf(keys[1..], m);
      assert forall p :: p in here <==> k in m && HoldsPort(m[k], p);
      assert forall x :: x in keys <==> x == k || x in keys[1..];
      here + rest
  }

  /** `_.uniq`: the first occurrence of each value, in order. */
  function Uniq(s: seq<int>): (r: seq<int>)
    ensures forall x :: x in r <==> x in s
    ensures forall i, j :: 0 <= i < j < |r| ==> r[i] != r[j]
    decreases |s|
  {
    if |s| == 0 then []
    else
      var u := Uniq(s[..|s| - 1]);
      assert forall x :: x in s <==> x in s[..|s| - 1] || x == s[|s| - 1];
      if s[|s| - 1] in u then u else u + [s[|s| - 1]]
  }

  /**
   * `getUsedPort()`: nothing for an unreadable cache; otherwise the ports of every entry's leases,
   * expired or not, each once. Slots have no `list` and contribute nothing.
   */
  function GetUsedPort(cache: Option<Cache>): (r: seq<int>)
    requires cache.Some? ==> Valid(cache.value)
    ensures cache.None? ==> r == []
    ensures cache.Some? ==> forall p :: p in r <==>
      exists k :: k in cache.value.entries && HoldsPort(cache.value.entries[k], p)
    ensures forall i, j :: 0 <= i < j < |r| ==> r[i] != r[j]
  {
    match cache
    case None => []
    case Some(c) => Uniq(PortsOf(c.keys, c.entries))
  }

  // ---------------------------------------------------------------------------------------------
  // Writers

  /** The leases a run holds before a new one is appended. */
  function PriorLeases(c: Cache, seqId: string): seq<Lease> {
    if seqId in c.entries && c.entries[seqId].list.Some? then c.entries[seqId].list.value else []
  }

  /**
   * `saveUsedPort(name, port, testRecord)`: appends `{name, port}` to the run's list, creating the
   * entry when absent, and sets `t` and `dwtPath`; every other key is left as it was. An existing
   * entry without a list makes `data.list.push` throw.
   */
  function SaveUsedPort(name: string, port: int, seqId: string, dwtPath: Option<string>, now: int,
                        cache: Option<Cache>): (r: Result<Cache, Thrown>)
    requires cache.Some? ==> Valid(cache.value)
    ensures var c := Loaded(cache);
      && (r.Failure? <==> seqId in c.entries && c.entries[seqId].list.None?)
      && (r.Success? ==>
            && Valid(r.value)
            && seqId in r.value.entries
            && r.value.entries[seqId].list == Some(PriorLeases(c, seqId) + [Lease(name, port, None)])
            && r.value.entries[seqId].t == Some(now)
            && r.value.entries[seqId].dwtPath == dwtPath
            && r.value.entries - {seqId} == c.entries - {seqId})
  {
    var c := Loaded(cache);
    var item := Lease(name, port, None);
    if seqId in c.entries then
      var data := c.entries[seqId];
      if data.list.None? then Failure(TypeError("Cannot read properties of undefined (reading 'push')"))
      else Success(Put(c, seqId, data.(list := Some(data.list.value + [item]), t := Some(now), dwtPath := dwtPath)))
    else
      assert PriorLeases(c, seqId) + [item] == [item];
      Success(Put(c, seqId, Entry(Some(now), dwtPath, Some([item]), None)))
  }

  /** A port just leased is among the used ports from then on. */
  lemma SavedPortIsUsed(name: string, port: int, seqId: string, dwtPath: Option<string>, now: int, cache: Option<Cache>)
    requires cache.Some? ==> Valid(cache.value)
    requires SaveUsedPort(name, port, seqId, dwtPath, now, cache).Success?
    ensures port in GetUsedPort(Some(SaveUsedPort(name, port, seqId, dwtPath, now, cache).value))
  {
    var c' := SaveUsedPort(name, port, seqId, dwtPath, now, cache).value;
    var l := c'.entries[seqId].list.value;
    assert l[|l| - 1].port == port;
    assert HoldsPort(c'.entries[seqId], port);
  }

  /** The position of the first lease named `name`, or -1 when there is none (the first element of the filtered list). */
  function FirstNamed(list: seq<Lease>, name: string): (i: int)
    ensures -1 <= i < |list|
    ensures i >= 0 ==> list[i].name == name && forall j :: 0 <= j < i ==> list[j].name != name
    ensures i == -1 ==> forall j :: 0 <= j < |list| ==> list[j].name != name
    decreases |list|
  {
    if |list| == 0 then -1
    else if list[0].name == name then 0
    else
      var i := FirstNamed(list[1..], name);
      if i == -1 then -1 else i + 1
  }

  /**
   * `saveUsedPid(name, pid, testRecord)`. `Success(None)`: nothing is written, because the run has no
   * entry or no lease of that name. Otherwise only the first lease of that name gets the pid and `t`
   * is refreshed. An entry without a list makes `data.list.filter` throw.
   */
  function SaveUsedPid(name: string, pid: Option<int>, seqId: string, now: int, cache: Option<Cache>)
    : (r: Result<Option<Cache>, Thrown>)
    requires cache.Some? ==> Valid(cache.value)
    ensures var c := Loaded(cache);
      && (seqId !in c.entries ==> r == Success(None))
      && (r.Failure? <==> seqId in c.entries && c.entries[seqId].list.None?)
      && (seqId in c.entries && c.entries[seqId].list.Some? ==>
            var l := c.entries[seqId].list.value;
            && ((forall j :: 0 <= j < |l| ==> l[j].name != name) <==> r == Success(None))
            && (r.Success? && r.value.Some? ==>
                  && Valid(r.value.value)
                  && r.value.value.entries - {seqId} == c.entries - {seqId}
                  && seqId in r.value.value.entries
                  && var e := r.value.value.entries[seqId];
                  && e.t == Some(now) && e.dwtPath == c.entries[seqId].dwtPath && e.list.Some?
                  && |e.list.value| == |l|
                  && exists i :: 0 <= i < |l| && l[i].name == name
                       && (forall j :: 0 <= j < i ==> l[j].name != name)
                       && e.list.value[i] == l[i].(pid := pid)
                       && forall j :: 0 <= j < |l| && j != i ==> e.list.value[j] == l[j]))
  {
    var c := Loaded(cache);
    if seqId !in c.entries then Success(None)
    else
      var data := c.entries[seqId];
      if data.list.None? then Failure(TypeError("Cannot read properties of undefined (reading 'filter')"))
      else
        var l := data.list.value;
        var i := FirstNamed(l, name);
        if i == -1 then Success(None)
        else Success(Some(Put(c, seqId, data.(list := Some(l[i := l[i].(pid := pid)]), t := Some(now)))))
  }

  // ---------------------------------------------------------------------------------------------
  // lastUsed slots

  function SlotKey(name: string): string {
    SlotPrefix + name
  }

  lemma SlotKeyInjective(a: string, b: string)
    requires SlotKey(a) == SlotKey(b)
    ensures a == b
  {
    assert a == SlotKey(a)[|SlotPrefix|..];
    assert b == SlotKey(b)[|SlotPrefix|..];
  }

  /** `saveLastUsedPort(name, port)`: overwrites the `lastUsed<name>` slot and nothing else. */
  function SaveLastUsedPort(name: string, port: int, now: int, cache: Option<Cache>): (r: Cache)
    requires cache.Some? ==> Valid(cache.value)
    ensures Valid(r)
    ensures r.entries == Loaded(cache).entries[SlotKey(name) := Entry(Some(now), None, None, Some(port))]
  {
    Put(Loaded(cache), SlotKey(name), Entry(Some(now), None, None, Some(port)))
  }

  /** `getLastUsedPort(name)`: the slot's port, or nothing when the slot (or its port) is missing. */
  function GetLastUsedPort(name: string, cache: Option<Cache>): (r: Option<int>)
    requires cache.Some? ==> Valid(cache.value)
    ensures SlotKey(name) !in Loaded(cache).entries ==> r.None?
  {
    var c := Loaded(cache);
    if SlotKey(name) in c.entries then c.entries[SlotKey(name)].port else None
  }

  /** A slot reads back the port last saved in it; other slots and every run entry are untouched. */
  lemma LastUsedRoundTrip(name: string, other: string, port: int, now: int, cache: Option<Cache>)
    requires cache.Some? ==> Valid(cache.value)
    ensures GetLastUsedPort(name, Some(SaveLastUsedPort(name, port, now, cache))) == Some(port)
    ensures other != name ==>
      GetLastUsedPort(other, Some(SaveLastUsedPort(name, port, now, cache))) == GetLastUsedPort(other, cache)
  {
    if other != name && SlotKey(other) == SlotKey(name) {
      SlotKeyInjective(other, name);
    }
  }
}
