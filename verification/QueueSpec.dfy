/** The allocator's queues as values: the entries of each build and the index
    from a server's namespaced name to its build. */
module QueueSpec {
  import opened GameServerHeap

  datatype QueueState = QueueState(queues: map<string, multiset<Entry>>, index: map<string, string>)

  datatype Popped = Nothing | Got(entry: Entry)

  datatype Op =
    | Push(entry: Entry)
    | Pop(build: string, result: Popped)
    | Remove(namespace: string, name: string)

  function Key(namespace: string, name: string): string {
    namespace + "/" + name
  }

  function KeyOf(e: Entry): string {
    Key(e.namespace, e.name)
  }

  function NamesIn(q: multiset<Entry>): set<string> {
    set e | e in q :: e.name
  }

  predicate IsFor(e: Entry, namespace: string, name: string) {
    e.namespace == namespace && e.name == name
  }

  // Each name at most once.
  ghost predicate OneEach(q: multiset<Entry>) {
    && (forall e :: q[e] <= 1)
    && (forall a, b :: a in q && b in q && a.name == b.name ==> a == b)
  }

  // A build with no entries has no queue.
  function Stored(queues: map<string, multiset<Entry>>, build: string, q: multiset<Entry>): map<string, multiset<Entry>> {
    if q == multiset{} then queues - {build} else queues[build := q]
  }

  ghost predicate Queued(s: QueueState, build: string, e: Entry) {
    build in s.queues && e in s.queues[build]
  }

  function BuildFor(s: QueueState, namespace: string, name: string): string {
    if Key(namespace, name) in s.index then s.index[Key(namespace, name)] else ""
  }

  // q without its entry for a server, if it has one.
  ghost function Purged(q: multiset<Entry>, namespace: string, name: string): multiset<Entry> {
    if exists e :: e in q && IsFor(e, namespace, name) then
      var e :| e in q && IsFor(e, namespace, name); q - multiset{e}
    else q
  }

  ghost predicate Step(s: QueueState, op: Op, s': QueueState) {
    match op
    case Push(e) =>
      var q := if e.buildID in s.queues then s.queues[e.buildID] else multiset{};
      s' == QueueState(s.queues[e.buildID := if e.name in NamesIn(q) then q else q + multiset{e}],
                       s.index[KeyOf(e) := e.buildID])
    case Pop(build, Nothing) =>
      build !in s.queues && s' == s
    case Pop(build, Got(e)) =>
      && build in s.queues && e in s.queues[build]
      && (forall x :: x in s.queues[build] ==> e.nodeAge <= x.nodeAge)
      && s' == s.(queues := Stored(s.queues, build, s.queues[build] - multiset{e}))
    case Remove(namespace, name) =>
      var build := BuildFor(s, namespace, name);
      if build !in s.queues then s' == s
      else s' == QueueState(Stored(s.queues, build, Purged(s.queues[build], namespace, name)),
                            s.index - {Key(namespace, name)})
  }

  // What every state satisfies
  ghost predicate QueueOk(build: string, q: multiset<Entry>) {
    q != multiset{} && OneEach(q) && (forall e :: e in q ==> e.buildID == build)
  }

  ghost predicate Inv(s: QueueState) {
    forall b :: b in s.queues ==> QueueOk(b, s.queues[b])
  }

  // The index finds every queued entry.
  ghost predicate Indexed(s: QueueState) {
    forall b, e :: Queued(s, b, e) ==> KeyOf(e) in s.index && s.index[KeyOf(e)] == b
  }

  lemma PushOne(q: multiset<Entry>, e: Entry)
    requires OneEach(q) && e.name !in NamesIn(q)
    ensures OneEach(q + multiset{e})
  {
    assert e !in q;
  }

  lemma TakeOne(q: multiset<Entry>, e: Entry)
    requires OneEach(q) && e in q
    ensures OneEach(q - multiset{e}) && e !in q - multiset{e}
    ensures NamesIn(q - multiset{e}) == NamesIn(q) - {e.name}
  {
    var r := q - multiset{e};
    assert forall x :: x in r <==> x in q && x != e;
  }

  lemma PurgedExactly(q: multiset<Entry>, namespace: string, name: string)
    requires OneEach(q)
    ensures OneEach(Purged(q, namespace, name))
    ensures forall x :: x in Purged(q, namespace, name) <==> x in q && !IsFor(x, namespace, name)
  {
    if exists e :: e in q && IsFor(e, namespace, name) {
      var e :| e in q && IsFor(e, namespace, name) && Purged(q, namespace, name) == q - multiset{e};
      TakeOne(q, e);
      assert forall x :: x in q - multiset{e} <==> x in q && x != e;
    }
  }

  lemma StoredOk(s: QueueState, build: string, q: multiset<Entry>, s': QueueState)
    requires Inv(s) && build in s.queues && OneEach(q) && (forall x :: x in q ==> x in s.queues[build])
    requires s'.queues == Stored(s.queues, build, q)
    ensures Inv(s')
  {
    assert QueueOk(build, s.queues[build]);
    forall b | b in s'.queues
      ensures QueueOk(b, s'.queues[b])
    {
      assert b != build ==> QueueOk(b, s.queues[b]);
    }
  }

  lemma StoredHolds(s: QueueState, build: string, q: multiset<Entry>, s': QueueState)
    requires build in s.queues && (forall x :: x in q ==> x in s.queues[build])
    requires s'.queues == Stored(s.queues, build, q)
    ensures forall b, x :: Queued(s', b, x) <==> Queued(s, b, x) && (b == build ==> x in q)
  {
  }

  lemma PushedIsOk(build: string, q: multiset<Entry>, e: Entry)
    requires e.buildID == build && (q == multiset{} || QueueOk(build, q))
    ensures QueueOk(build, if e.name in NamesIn(q) then q else q + multiset{e})
  {
    if e.name !in NamesIn(q) {
      PushOne(q, e);
    } else {
      assert q != multiset{};
    }
  }

  lemma PushKeepsInv(s: QueueState, e: Entry, s': QueueState)
    requires Inv(s) && Step(s, Push(e), s')
    ensures Inv(s')
  {
    var q := if e.buildID in s.queues then s.queues[e.buildID] else multiset{};
    assert e.buildID in s.queues ==> QueueOk(e.buildID, q);
    PushedIsOk(e.buildID, q, e);
    hide QueueOk, NamesIn;
    forall b | b in s'.queues
      ensures QueueOk(b, s'.queues[b])
    {
      assert b != e.buildID ==> QueueOk(b, s.queues[b]);
    }
  }

  /** After a removal exactly the entries are queued that were queued before,
      but for the removed server in the queue the index named. */
  lemma RemoveKeepsInv(s: QueueState, ns: string, name: string, s': QueueState)
    requires Inv(s) && Step(s, Remove(ns, name), s')
    ensures Inv(s')
    ensures forall b, x :: Queued(s', b, x) <==>
      Queued(s, b, x) && !(b == BuildFor(s, ns, name) && IsFor(x, ns, name))
  {
    var build := BuildFor(s, ns, name);
    if build in s.queues {
      assert QueueOk(build, s.queues[build]);
      PurgedExactly(s.queues[build], ns, name);
      hide Purged, Stored, Inv, Queued;
      StoredOk(s, build, Purged(s.queues[build], ns, name), s');
      StoredHolds(s, build, Purged(s.queues[build], ns, name), s');
    }
  }

  /** In every reachable state no stored queue is empty, each holds a name at
      most once, and only servers of its own build. */
  lemma InvKept(s: QueueState, op: Op, s': QueueState)
    requires Inv(s) && Step(s, op, s')
    ensures Inv(s')
  {
    match op
    case Push(e) => PushKeepsInv(s, e, s');
    case Pop(build, Nothing) =>
    case Pop(build, Got(e)) =>
      assert QueueOk(build, s.queues[build]);
      TakeOne(s.queues[build], e);
      StoredOk(s, build, s.queues[build] - multiset{e}, s');
    case Remove(namespace, name) => RemoveKeepsInv(s, namespace, name, s');
  }

  // Namespaced names

  lemma {:induction false} KeyInjective(ns1: string, n1: string, ns2: string, n2: string)
    requires '/' !in ns1 && '/' !in ns2 && Key(ns1, n1) == Key(ns2, n2)
    ensures ns1 == ns2 && n1 == n2
  {
    var k := Key(ns1, n1);
    assert k[|ns1|] == '/' && k[|ns2|] == '/';
    assert forall i :: 0 <= i < |ns1| ==> k[i] == ns1[i];
    assert forall i :: 0 <= i < |ns2| ==> k[i] == ns2[i];
    assert |ns1| == |ns2|;
    assert ns1 == k[..|ns1|] && ns2 == k[..|ns2|];
    assert n1 == k[|ns1| + 1..] && n2 == k[|ns2| + 1..];
  }

  // Namespaces have no slash, and a pushed entry carries the one build of its
  // server.
  predicate Proper(op: Op, owner: (string, string) -> string) {
    match op
    case Push(e) => '/' !in e.namespace && owner(e.namespace, e.name) == e.buildID
    case Pop(_, _) => true
    case Remove(namespace, _) => '/' !in namespace
  }

  ghost predicate ProperState(s: QueueState, owner: (string, string) -> string) {
    forall b, e :: Queued(s, b, e) ==> '/' !in e.namespace && owner(e.namespace, e.name) == b
  }

  lemma PushedQueue(s: QueueState, e: Entry, s': QueueState)
    requires Step(s, Push(e), s')
    ensures forall x :: Queued(s', e.buildID, x) <==>
      Queued(s, e.buildID, x) || (x == e && forall y :: Queued(s, e.buildID, y) ==> y.name != e.name)
    ensures forall b, x :: b != e.buildID ==> (Queued(s', b, x) <==> Queued(s, b, x))
    ensures s'.index == s.index[KeyOf(e) := e.buildID]
  {
  }

  /** A pushed server is queued under its build afterwards: with the pushed entry,
      unless the build has one under that name already, which then stays. All
      other entries stay, no more come, and the index names that build. */
  lemma PushQueues(s: QueueState, e: Entry, s': QueueState)
    requires Step(s, Push(e), s')
    ensures exists x :: Queued(s', e.buildID, x) && x.name == e.name
    ensures Queued(s', e.buildID, e) <==>
      Queued(s, e.buildID, e) || forall x :: Queued(s, e.buildID, x) ==> x.name != e.name
    ensures forall b, x :: Queued(s, b, x) ==> Queued(s', b, x)
    ensures forall b, x :: Queued(s', b, x) ==> Queued(s, b, x) || (b == e.buildID && x == e)
    ensures KeyOf(e) in s'.index && s'.index[KeyOf(e)] == e.buildID && s'.index - {KeyOf(e)} == s.index - {KeyOf(e)}
  {
    hide Step, Queued, KeyOf;
    PushedQueue(s, e, s');
    if x :| Queued(s, e.buildID, x) && x.name == e.name {
      assert Queued(s', e.buildID, x);
    } else {
      assert Queued(s', e.buildID, e);
    }
  }

  lemma PushKeepsIndex(s: QueueState, e: Entry, s': QueueState, owner: (string, string) -> string)
    requires Indexed(s) && ProperState(s, owner) && Step(s, Push(e), s') && Proper(Push(e), owner)
    ensures Indexed(s') && ProperState(s', owner)
  {
    forall b, x | Queued(s', b, x)
      ensures KeyOf(x) in s'.index && s'.index[KeyOf(x)] == b
      ensures '/' !in x.namespace && owner(x.namespace, x.name) == b
    {
      PushQueues(s, e, s');
      assert s'.index == s.index[KeyOf(e) := e.buildID];
      if KeyOf(x) == KeyOf(e) {
        KeyInjective(x.namespace, x.name, e.namespace, e.name);
      }
    }
  }

  lemma PopLeaves(s: QueueState, build: string, e: Entry, s': QueueState)
    requires Inv(s) && Step(s, Pop(build, Got(e)), s')
    ensures forall b, x :: Queued(s', b, x) <==> Queued(s, b, x) && x != e
  {
    assert QueueOk(build, s.queues[build]);
    TakeOne(s.queues[build], e);
    StoredHolds(s, build, s.queues[build] - multiset{e}, s');
    forall b | Queued(s, b, e)
      ensures b == build
    {
      assert QueueOk(b, s.queues[b]);
    }
  }

  lemma PopKeepsIndex(s: QueueState, build: string, e: Entry, s': QueueState, owner: (string, string) -> string)
    requires Inv(s) && Indexed(s) && ProperState(s, owner) && Step(s, Pop(build, Got(e)), s')
    ensures Indexed(s') && ProperState(s', owner)
  {
    PopLeaves(s, build, e, s');
  }

  lemma RemoveUnindexes(s: QueueState, ns: string, name: string, s': QueueState)
    requires Step(s, Remove(ns, name), s')
    ensures s'.index == if BuildFor(s, ns, name) in s.queues then s.index - {Key(ns, name)} else s.index
  {
  }

  lemma StaysIndexed(s: QueueState, ns: string, name: string, owner: (string, string) -> string, b: string, x: Entry)
    requires Indexed(s) && ProperState(s, owner) && '/' !in ns && Queued(s, b, x)
    requires !(b == BuildFor(s, ns, name) && IsFor(x, ns, name))
    ensures KeyOf(x) in s.index && s.index[KeyOf(x)] == b && KeyOf(x) != Key(ns, name)
  {
    if KeyOf(x) == Key(ns, name) {
      KeyInjective(x.namespace, x.name, ns, name);
    }
  }

  lemma EntryStaysIndexed(s: QueueState, ns: string, name: string, s': QueueState, owner: (string, string) -> string,
                          b: string, x: Entry)
    requires Inv(s) && Indexed(s) && ProperState(s, owner) && Step(s, Remove(ns, name), s') && '/' !in ns
    requires Queued(s', b, x)
    ensures Queued(s, b, x) && KeyOf(x) in s'.index && s'.index[KeyOf(x)] == b
  {
    hide Step, Inv, Indexed, ProperState, Queued, KeyOf, BuildFor;
    RemoveKeepsInv(s, ns, name, s');
    RemoveUnindexes(s, ns, name, s');
    StaysIndexed(s, ns, name, owner, b, x);
  }

  lemma RemoveKeepsIndex(s: QueueState, ns: string, name: string, s': QueueState, owner: (string, string) -> string)
    requires Inv(s) && Indexed(s) && ProperState(s, owner) && Step(s, Remove(ns, name), s') && '/' !in ns
    ensures Indexed(s') && ProperState(s', owner)
  {
    hide Step, Inv, Queued, KeyOf;
    forall b, x | Queued(s', b, x)
      ensures Queued(s, b, x) && KeyOf(x) in s'.index && s'.index[KeyOf(x)] == b
    {
      EntryStaysIndexed(s, ns, name, s', owner, b, x);
    }
  }

  /** Removing a server clears it from every queue exactly when it is queued
      nowhere but in the queue the index names. */
  lemma RemovalIsComplete(s: QueueState, ns: string, name: string, s': QueueState)
    requires Inv(s) && Step(s, Remove(ns, name), s')
    ensures (forall b, e :: Queued(s', b, e) ==> !IsFor(e, ns, name))
       <==> (forall b, e :: Queued(s, b, e) && IsFor(e, ns, name) ==> b == BuildFor(s, ns, name))
  {
    RemoveKeepsInv(s, ns, name, s');
  }

  // Runs

  datatype Run = Run(states: seq<QueueState>, ops: seq<Op>)

  ghost predicate IsRun(r: Run) {
    && |r.states| == |r.ops| + 1
    && r.states[0] == QueueState(map[], map[])
    && (forall i :: 0 <= i < |r.ops| ==> Step(r.states[i], r.ops[i], r.states[i + 1]))
  }

  lemma {:induction false} QueuesAgree(r: Run, owner: (string, string) -> string, i: nat)
    requires IsRun(r) && i <= |r.ops|
    requires forall k :: 0 <= k < |r.ops| ==> Proper(r.ops[k], owner)
    ensures Inv(r.states[i]) && Indexed(r.states[i]) && ProperState(r.states[i], owner)
  {
    if i > 0 {
      QueuesAgree(r, owner, i - 1);
      var s, op, s' := r.states[i - 1], r.ops[i - 1], r.states[i];
      assert Step(s, op, s') && Proper(op, owner);
      InvKept(s, op, s');
      match op
      case Push(e) => PushKeepsIndex(s, e, s', owner);
      case Pop(build, Nothing) =>
      case Pop(build, Got(e)) => PopKeepsIndex(s, build, e, s', owner);
      case Remove(namespace, name) => RemoveKeepsIndex(s, namespace, name, s', owner);
    }
  }

  /** With one build per server, a removal leaves no entry of that server in any
      queue, in every reachable state. */
  lemma RemovalClears(r: Run, owner: (string, string) -> string, i: nat, b: string, e: Entry)
    requires IsRun(r) && i < |r.ops| && r.ops[i].Remove?
    requires forall k :: 0 <= k < |r.ops| ==> Proper(r.ops[k], owner)
    requires Queued(r.states[i + 1], b, e)
    ensures !IsFor(e, r.ops[i].namespace, r.ops[i].name)
  {
    QueuesAgree(r, owner, i);
    var s, op := r.states[i], r.ops[i];
    assert Step(s, op, r.states[i + 1]) && Proper(op, owner);
    RemoveKeepsInv(s, op.namespace, op.name, r.states[i + 1]);
  }

  const EARLIER := Entry("gs", "ns", "b1", 0, 1)
  const LATER := Entry("gs", "ns", "b2", 0, 2)

  lemma SecondBuildTakesIndex() returns (s1: QueueState, s2: QueueState)
    ensures Step(QueueState(map[], map[]), Push(EARLIER), s1) && Step(s1, Push(LATER), s2)
    ensures s2.queues == map["b1" := multiset{EARLIER}, "b2" := multiset{LATER}]
    ensures s2.index == map[Key("ns", "gs") := "b2"]
  {
    var key := Key("ns", "gs");
    s1 := QueueState(map["b1" := multiset{EARLIER}], map[key := "b1"]);
    s2 := QueueState(map["b1" := multiset{EARLIER}, "b2" := multiset{LATER}], map[key := "b2"]);
    assert multiset{} + multiset{EARLIER} == multiset{EARLIER} && multiset{} + multiset{LATER} == multiset{LATER};
  }

  lemma RemovalSeesSecondBuild(s2: QueueState) returns (s3: QueueState)
    requires s2.queues == map["b1" := multiset{EARLIER}, "b2" := multiset{LATER}]
    requires s2.index == map[Key("ns", "gs") := "b2"]
    ensures Step(s2, Remove("ns", "gs"), s3) && Queued(s3, "b1", EARLIER)
  {
    assert BuildFor(s2, "ns", "gs") == "b2";
    assert LATER in s2.queues["b2"] && IsFor(LATER, "ns", "gs");
    assert Purged(multiset{LATER}, "ns", "gs") == multiset{};
    s3 := QueueState(s2.queues - {"b2"}, s2.index - {Key("ns", "gs")});
  }

  lemma RunGrows(r: Run, op: Op, s: QueueState) returns (r': Run)
    requires IsRun(r) && Step(r.states[|r.ops|], op, s)
    ensures IsRun(r') && r'.ops == r.ops + [op] && r'.states == r.states + [s]
  {
    hide Step;
    r' := Run(r.states + [s], r.ops + [op]);
  }

  lemma EmptyRun() returns (r: Run)
    ensures IsRun(r) && r == Run([QueueState(map[], map[])], [])
  {
    r := Run([QueueState(map[], map[])], []);
  }

  /** A server that was queued under two builds outlives its removal. */
  lemma TwoBuildsDefeatRemoval() returns (r: Run, e: Entry)
    ensures IsRun(r) && |r.ops| == 3 && r.ops[2] == Remove("ns", "gs")
    ensures Queued(r.states[3], "b1", e) && IsFor(e, "ns", "gs")
  {
    var s1, s2 := SecondBuildTakesIndex();
    var s3 := RemovalSeesSecondBuild(s2);
    hide Step, IsRun, Queued, Key;
    e := EARLIER;
    r := EmptyRun();
    r := RunGrows(r, Push(EARLIER), s1);
    r := RunGrows(r, Push(LATER), s2);
    r := RunGrows(r, Remove("ns", "gs"), s3);
  }
}
