/** The API server's GameServer objects and the controllers' cache of them.
    A record keeps every version an object ever had; a cache has followed that
    history up to some point, which is all a lagging informer guarantees. */
module ApiStore {
  import opened Options
  import opened GameServers

  // seen == 0: the cache has not heard of the object; seen == k: it holds
  // version k - 1; seen == |versions| + 1: it has seen the deletion.
  datatype Record = Record(versions: seq<GameServer>, deleted: bool, seen: nat) {
    function Length(): nat {
      |versions| + if deleted then 1 else 0
    }
  }

  // clock is the next resource version; it only grows, so none is reused.
  datatype Store = Store(records: map<string, Record>, clock: nat)

  ghost predicate RecordOk(name: string, r: Record, clock: nat) {
    && 0 < |r.versions|
    && r.seen <= r.Length()
    && (forall i :: 0 <= i < |r.versions| ==> r.versions[i].name == name && r.versions[i].version < clock)
    && (forall i, j :: 0 <= i < j < |r.versions| ==> r.versions[i].version < r.versions[j].version)
  }

  ghost predicate StoreOk(s: Store) {
    forall n :: n in s.records ==> RecordOk(n, s.records[n], s.clock)
  }

  function Live(s: Store, name: string): Option<GameServer> {
    if name in s.records && !s.records[name].deleted && s.records[name].versions != []
    then Some(s.records[name].versions[|s.records[name].versions| - 1])
    else None
  }

  function Cached(s: Store, name: string): Option<GameServer> {
    if name in s.records && 0 < s.records[name].seen <= |s.records[name].versions|
    then Some(s.records[name].versions[s.records[name].seen - 1])
    else None
  }

  function LiveNames(s: Store): set<string> {
    set n | n in s.records && Live(s, n).Some?
  }

  function CachedNames(s: Store): set<string> {
    set n | n in s.records && Cached(s, n).Some?
  }

  // g is one of the versions its object has had.
  ghost predicate InHistory(s: Store, g: GameServer) {
    g.name in s.records && g in s.records[g.name].versions
  }

  // Steps of the API server

  function Created(s: Store, name: string): Store {
    Store(s.records[name := Record([GameServer(name, Unset, Unknown, s.clock)], false, 0)], s.clock + 1)
  }

  function Written(s: Store, name: string, state: State, health: Health): Store
    requires name in s.records
  {
    var r := s.records[name];
    Store(s.records[name := r.(versions := r.versions + [GameServer(name, state, health, s.clock)])], s.clock + 1)
  }

  function Deleted(s: Store, name: string): Store
    requires name in s.records
  {
    s.(records := s.records[name := s.records[name].(deleted := true)])
  }

  // Steps of the cache

  function Observed(s: Store, name: string, upto: nat): Store
    requires name in s.records
  {
    s.(records := s.records[name := s.records[name].(seen := upto)])
  }

  function Resynced(s: Store): Store {
    s.(records := map n | n in s.records :: s.records[n].(seen := s.records[n].Length()))
  }

  /** Compare-and-set on a resource version sees exactly the version it was
      built from: a version that matches the live one is the live one. */
  lemma VersionPins(s: Store, g: GameServer)
    requires StoreOk(s) && InHistory(s, g)
    requires Live(s, g.name).Some? && Live(s, g.name).value.version == g.version
    ensures Live(s, g.name).value == g
  {
    var vs := s.records[g.name].versions;
    var i :| 0 <= i < |vs| && vs[i] == g;
    assert forall j :: 0 <= j < |vs| - 1 ==> vs[j].version < vs[|vs| - 1].version;
  }

  lemma CachedInHistory(s: Store, name: string)
    requires StoreOk(s) && Cached(s, name).Some?
    ensures Cached(s, name).value.name == name && InHistory(s, Cached(s, name).value)
  {
  }

  // A cache that has seen everything agrees with the API server.
  lemma SyncedCache(s: Store, name: string)
    requires StoreOk(s)
    requires name in s.records ==> s.records[name].seen == s.records[name].Length()
    ensures Cached(s, name) == Live(s, name)
  {
  }

  // Histories only get longer, and end at deletion.
  ghost predicate Grows(s: Store, t: Store) {
    forall n :: n in s.records ==>
      && n in t.records
      && s.records[n].versions <= t.records[n].versions
      && s.records[n].seen <= t.records[n].seen
      && (s.records[n].deleted ==> t.records[n].deleted && t.records[n].versions == s.records[n].versions)
  }

  lemma HistoryGrows(s: Store, t: Store, g: GameServer)
    requires Grows(s, t) && InHistory(s, g)
    ensures InHistory(t, g)
  {
    var i :| 0 <= i < |s.records[g.name].versions| && s.records[g.name].versions[i] == g;
    assert t.records[g.name].versions[i] == g;
  }

  lemma CreatedOk(s: Store, name: string)
    requires StoreOk(s) && name !in s.records
    ensures StoreOk(Created(s, name)) && Grows(s, Created(s, name))
  {
  }

  lemma WrittenOk(s: Store, name: string, state: State, health: Health)
    requires StoreOk(s) && Live(s, name).Some?
    ensures StoreOk(Written(s, name, state, health)) && Grows(s, Written(s, name, state, health))
  {
    var t := Written(s, name, state, health);
    assert RecordOk(name, s.records[name], s.clock);
    assert RecordOk(name, t.records[name], t.clock);
    forall n | n in t.records && n != name
      ensures RecordOk(n, t.records[n], t.clock)
    {
      assert RecordOk(n, s.records[n], s.clock);
    }
  }

  lemma DeletedOk(s: Store, name: string)
    requires StoreOk(s) && Live(s, name).Some?
    ensures StoreOk(Deleted(s, name)) && Grows(s, Deleted(s, name))
  {
  }

  lemma ObservedOk(s: Store, name: string, upto: nat)
    requires StoreOk(s) && name in s.records && s.records[name].seen <= upto <= s.records[name].Length()
    ensures StoreOk(Observed(s, name, upto)) && Grows(s, Observed(s, name, upto))
  {
  }

  lemma ResyncedOk(s: Store)
    requires StoreOk(s)
    ensures StoreOk(Resynced(s)) && Grows(s, Resynced(s))
  {
  }

  // What each step does to the live servers.

  lemma LiveAfterWritten(s: Store, name: string, state: State, health: Health, n: string)
    requires Live(s, name).Some?
    ensures Live(Written(s, name, state, health), n)
         == if n == name then Some(GameServer(name, state, health, s.clock)) else Live(s, n)
  {
  }

  lemma LiveAfterDeleted(s: Store, name: string, n: string)
    requires name in s.records
    ensures Live(Deleted(s, name), n) == if n == name then None else Live(s, n)
  {
  }

  lemma LiveAfterCreated(s: Store, name: string, n: string)
    ensures Live(Created(s, name), n)
         == if n == name then Some(GameServer(name, Unset, Unknown, s.clock)) else Live(s, n)
  {
  }

  lemma LiveAfterSync(s: Store, name: string, upto: nat, n: string)
    requires name in s.records
    ensures Live(Observed(s, name, upto), n) == Live(s, n) == Live(Resynced(s), n)
  {
  }
}
