/** The allocator's queues as objects: one heap with a name set per build, and
    the index over them. */
module GameServersQueues {
  import opened GameServerHeap
  import opened QueueSpec

  class GameServerQueueForBuild {
    const queue: GameServerQueue
    var gameServerNameSet: set<string>
    ghost const build: string

    constructor (ghost build: string)
      ensures Valid() && Entries() == multiset{} && fresh(queue)
      ensures this.build == queue.build == build
    {
      queue := new GameServerQueue(build);
      gameServerNameSet := {};
      this.build := build;
    }

    function Entries(): multiset<Entry>
      reads queue
    {
      multiset(queue.items)
    }

    // The queue is a heap of distinct names, and the name set is those names.
    ghost predicate Valid()
      reads this, queue
    {
      IsHeap(queue.items) && OneEach(Entries()) && gameServerNameSet == NamesIn(Entries())
    }

    lemma EmptyIsNameless()
      requires Valid()
      ensures gameServerNameSet == {} <==> Entries() == multiset{}
    {
      if e :| e in Entries() {
        assert e.name in NamesIn(Entries());
      }
    }

    // A name that is already queued is left as it is, with its old version.
    method PushToQueue(e: Entry)
      requires Valid()
      modifies this, queue
      ensures Valid()
      ensures Entries() == old(if e.name in NamesIn(Entries()) then Entries() else Entries() + multiset{e})
    {
      if e.name !in gameServerNameSet {
        PushOne(Entries(), e);
        gameServerNameSet := gameServerNameSet + {e.name};
        queue.PushToQueue(e);
      }
    }

    method PopFromQueue() returns (result: Popped)
      requires Valid()
      modifies this, queue
      ensures Valid()
      ensures result == Nothing <==> old(Entries()) == multiset{}
      ensures result == Nothing ==> Entries() == old(Entries())
      ensures result.Got? ==>
        && result.entry in old(Entries())
        && (forall x :: x in old(Entries()) ==> result.entry.nodeAge <= x.nodeAge)
        && Entries() == old(Entries()) - multiset{result.entry}
    {
      if queue.items == [] {
        return Nothing;
      }
      ghost var before := Entries();
      var e := queue.PopFromQueue();
      TakeOne(before, e);
      gameServerNameSet := gameServerNameSet - {e.name};
      result := Got(e);
    }

    method RemoveFromQueue(namespace: string, name: string)
      requires Valid()
      modifies this, queue
      ensures Valid()
      ensures Entries() == Purged(old(Entries()), namespace, name)
    {
      if name !in gameServerNameSet {
        PurgedNone(Entries(), namespace, name);
        return;
      }
      var i := 0;
      while i < |queue.items|
        invariant i <= |queue.items|
        invariant forall k :: 0 <= k < i ==> !IsFor(queue.items[k], namespace, name)
      {
        if IsFor(queue.items[i], namespace, name) {
          RemoveEntry(i);
          return;
        }
        i := i + 1;
      }
      assert forall e :: e in Entries() ==> e in queue.items;
      PurgedNone(Entries(), namespace, name);
    }

    // Takes out the entry at index i, its name with it.
    method RemoveEntry(i: nat)
      requires Valid() && i < |queue.items|
      modifies this, queue
      ensures Valid()
      ensures Entries() == old(Purged(Entries(), queue.items[i].namespace, queue.items[i].name))
    {
      ghost var before := Entries();
      var e := queue.items[i];
      PurgedIs(before, e);
      TakeOne(before, e);
      hide Purged, IsHeap, OneEach, NamesIn;
      var removed := queue.RemoveAt(i);
      gameServerNameSet := gameServerNameSet - {e.name};
    }
  }

  lemma PurgedNone(q: multiset<Entry>, namespace: string, name: string)
    requires forall e :: e in q ==> !IsFor(e, namespace, name)
    ensures Purged(q, namespace, name) == q
  {
  }

  lemma PurgedIs(q: multiset<Entry>, e: Entry)
    requires OneEach(q) && e in q
    ensures Purged(q, e.namespace, e.name) == q - multiset{e}
  {
    assert IsFor(e, e.namespace, e.name);
  }

  lemma PushIsStep(s: QueueState, e: Entry, provided: map<string, multiset<Entry>>, t: QueueState)
    requires provided == if e.buildID in s.queues then s.queues else s.queues[e.buildID := multiset{}]
    requires var q := provided[e.buildID];
             t == QueueState(provided[e.buildID := if e.name in NamesIn(q) then q else q + multiset{e}],
                             s.index[KeyOf(e) := e.buildID])
    ensures Step(s, Push(e), t)
  {
    var q := provided[e.buildID];
    var r := if e.name in NamesIn(q) then q else q + multiset{e};
    assert provided[e.buildID := r] == s.queues[e.buildID := r];
  }

  lemma NoneQueued(s: QueueState, build: string)
    requires Inv(s)
    ensures build in s.queues ==> s.queues[build] != multiset{}
    ensures build !in s.queues <==> forall e :: !Queued(s, build, e)
  {
    if build in s.queues {
      assert QueueOk(build, s.queues[build]);
      var e :| e in s.queues[build];
      assert Queued(s, build, e);
    }
  }

  lemma PopIsStep(s: QueueState, build: string, e: Entry, t: QueueState)
    requires build in s.queues && e in s.queues[build]
    requires forall x :: x in s.queues[build] ==> e.nodeAge <= x.nodeAge
    requires var q := s.queues[build] - multiset{e};
             t == s.(queues := Stored(s.queues[build := q], build, q))
    ensures Step(s, Pop(build, Got(e)), t)
  {
    var q := s.queues[build] - multiset{e};
    assert s.queues[build := q] - {build} == s.queues - {build};
    assert s.queues[build := q][build := q] == s.queues[build := q];
  }

  lemma RemoveIsStep(s: QueueState, namespace: string, name: string, t: QueueState)
    requires BuildFor(s, namespace, name) in s.queues
    requires var build := BuildFor(s, namespace, name);
             var q := Purged(s.queues[build], namespace, name);
             t == QueueState(Stored(s.queues[build := q], build, q), s.index - {Key(namespace, name)})
    ensures Step(s, Remove(namespace, name), t)
  {
    var build := BuildFor(s, namespace, name);
    var q := Purged(s.queues[build], namespace, name);
    assert s.queues[build := q] - {build} == s.queues - {build};
    assert s.queues[build := q][build := q] == s.queues[build := q];
  }

  class GameServersQueue {
    var queuesPerBuilds: map<string, GameServerQueueForBuild>
    var namespacedNameToBuildId: map<string, string>
    ghost var Repr: set<object>

    constructor ()
      ensures Valid() && fresh(Repr) && View() == QueueState(map[], map[])
    {
      queuesPerBuilds, namespacedNameToBuildId, Repr := map[], map[], {this};
    }

    // Builds have separate, valid queues.
    ghost predicate Separate()
      reads this, Repr
    {
      && this in Repr
      && (forall b :: b in queuesPerBuilds ==> queuesPerBuilds[b] in Repr && queuesPerBuilds[b].queue in Repr)
      && (forall b :: b in queuesPerBuilds ==> queuesPerBuilds[b].build == queuesPerBuilds[b].queue.build == b)
      && (forall b :: b in queuesPerBuilds ==> queuesPerBuilds[b].Valid())
    }

    ghost function Queues(): map<string, multiset<Entry>>
      requires Separate()
      reads this, Repr
    {
      map b | b in queuesPerBuilds :: queuesPerBuilds[b].Entries()
    }

    ghost function View(): QueueState
      requires Separate()
      reads this, Repr
    {
      QueueState(Queues(), namespacedNameToBuildId)
    }

    // Between operations the queues satisfy the invariant of QueueSpec.
    ghost predicate Valid()
      reads this, Repr
      ensures Valid() ==> Separate()
    {
      Separate() && Inv(View())
    }

    // Gives the build an empty queue.
    method Create(build: string)
      requires Separate() && build !in queuesPerBuilds
      modifies this
      ensures Separate() && build in queuesPerBuilds && fresh(Repr - old(Repr))
      ensures Queues() == old(Queues())[build := multiset{}]
      ensures namespacedNameToBuildId == old(namespacedNameToBuildId)
    {
      hide GameServerQueueForBuild.Valid, GameServerQueueForBuild.Entries, Separate;
      var q := new GameServerQueueForBuild(build);
      queuesPerBuilds := queuesPerBuilds[build := q];
      Repr := Repr + {q, q.queue};
      Joined(build, q);
    }

    // A new queue beside the others.
    twostate lemma Joined(build: string, new q: GameServerQueueForBuild)
      requires old(Separate()) && build !in old(queuesPerBuilds)
      requires queuesPerBuilds == old(queuesPerBuilds)[build := q] && Repr == old(Repr) + {q, q.queue}
      requires forall b :: b in old(queuesPerBuilds) ==>
        unchanged(old(queuesPerBuilds)[b]) && unchanged(old(queuesPerBuilds)[b].queue)
      requires q.Valid() && q.Entries() == multiset{} && q.build == q.queue.build == build
      ensures Separate() && Queues() == old(Queues())[build := multiset{}]
    {
      hide GameServerQueueForBuild.Valid, GameServerQueueForBuild.Entries;
      forall b | b in queuesPerBuilds
        ensures queuesPerBuilds[b].Valid()
        ensures b != build ==> queuesPerBuilds[b].Entries() == old(queuesPerBuilds[b].Entries())
      {
      }
    }

    // Acting on the queue of one build leaves the others alone.
    twostate lemma Refresh(build: string)
      requires old(Separate())
      requires queuesPerBuilds == old(queuesPerBuilds) && Repr == old(Repr)
      requires forall b :: b in queuesPerBuilds && b != build ==>
        unchanged(queuesPerBuilds[b]) && unchanged(queuesPerBuilds[b].queue)
      requires build in queuesPerBuilds && queuesPerBuilds[build].Valid()
      ensures Separate() && Queues() == old(Queues())[build := queuesPerBuilds[build].Entries()]
    {
      hide GameServerQueueForBuild.Valid, GameServerQueueForBuild.Entries;
      forall b | b in queuesPerBuilds
        ensures queuesPerBuilds[b].Valid()
        ensures b != build ==> queuesPerBuilds[b].Entries() == old(queuesPerBuilds[b].Entries())
      {
      }
    }

    // Drops the queue of a build if it has become empty.
    method DropIfEmpty(build: string)
      requires Separate() && build in queuesPerBuilds
      modifies this`queuesPerBuilds
      ensures Separate()
      ensures Queues() == Stored(old(Queues()), build, old(Queues())[build])
    {
      hide GameServerQueueForBuild.Valid, GameServerQueueForBuild.Entries;
      queuesPerBuilds[build].EmptyIsNameless();
      if queuesPerBuilds[build].gameServerNameSet == {} {
        queuesPerBuilds := queuesPerBuilds - {build};
      }
    }

    method Reindex(index: map<string, string>)
      requires Separate()
      modifies this`namespacedNameToBuildId
      ensures Separate() && Queues() == old(Queues()) && namespacedNameToBuildId == index
    {
      hide GameServerQueueForBuild.Valid, GameServerQueueForBuild.Entries;
      namespacedNameToBuildId := index;
    }

    // Pushes to a build that has a queue.
    method PushTo(build: string, e: Entry)
      requires Separate() && build in queuesPerBuilds
      modifies queuesPerBuilds[build], queuesPerBuilds[build].queue
      ensures Separate()
      ensures var q := old(Queues())[build];
              Queues() == old(Queues())[build := if e.name in NamesIn(q) then q else q + multiset{e}]
    {
      hide GameServerQueueForBuild.Valid, GameServerQueueForBuild.Entries;
      queuesPerBuilds[build].PushToQueue(e);
      Refresh(build);
    }

    method PushToQueue(e: Entry)
      requires Valid()
      modifies this, Repr
      ensures Valid() && fresh(Repr - old(Repr))
      ensures Step(old(View()), Push(e), View())
    {
      hide GameServerQueueForBuild.Valid, GameServerQueueForBuild.Entries, QueueOk;
      ghost var before := View();
      if e.buildID !in queuesPerBuilds {
        Create(e.buildID);
      }
      Reindex(namespacedNameToBuildId[Key(e.namespace, e.name) := e.buildID]);
      ghost var provided := Queues();
      PushTo(e.buildID, e);
      PushIsStep(before, e, provided, View());
      InvKept(before, Push(e), View());
    }

    // Pops from a build that has a queue.
    method PopFrom(build: string) returns (result: Popped)
      requires Separate() && build in queuesPerBuilds && Queues()[build] != multiset{}
      modifies queuesPerBuilds[build], queuesPerBuilds[build].queue
      ensures Separate()
      ensures result.Got? && result.entry in old(Queues())[build]
      ensures forall x :: x in old(Queues())[build] ==> result.entry.nodeAge <= x.nodeAge
      ensures Queues() == old(Queues())[build := old(Queues())[build] - multiset{result.entry}]
    {
      hide GameServerQueueForBuild.Valid, GameServerQueueForBuild.Entries;
      result := queuesPerBuilds[build].PopFromQueue();
      Refresh(build);
    }

    /** Nothing comes out exactly when the build has no server queued. */
    method PopFromQueue(build: string) returns (result: Popped)
      requires Valid()
      modifies this, Repr
      ensures Valid() && fresh(Repr - old(Repr))
      ensures Step(old(View()), Pop(build, result), View())
      ensures result == Nothing <==> forall e :: !Queued(old(View()), build, e)
    {
      hide GameServerQueueForBuild.Valid, GameServerQueueForBuild.Entries, QueueOk;
      ghost var before := View();
      NoneQueued(before, build);
      if build !in queuesPerBuilds {
        return Nothing;
      }
      result := PopFrom(build);
      DropIfEmpty(build);
      PopIsStep(before, build, result.entry, View());
      InvKept(before, Pop(build, result), View());
    }

    // Removes from a build that has a queue.
    method RemoveFrom(build: string, namespace: string, name: string)
      requires Separate() && build in queuesPerBuilds
      modifies queuesPerBuilds[build], queuesPerBuilds[build].queue
      ensures Separate()
      ensures Queues() == old(Queues())[build := Purged(old(Queues())[build], namespace, name)]
    {
      hide GameServerQueueForBuild.Valid, GameServerQueueForBuild.Entries;
      queuesPerBuilds[build].RemoveFromQueue(namespace, name);
      Refresh(build);
    }

    method RemoveFromQueue(namespace: string, name: string)
      requires Valid()
      modifies this, Repr
      ensures Valid() && fresh(Repr - old(Repr))
      ensures Step(old(View()), Remove(namespace, name), View())
    {
      hide GameServerQueueForBuild.Valid, GameServerQueueForBuild.Entries, QueueOk;
      ghost var before := View();
      var key := Key(namespace, name);
      var build := if key in namespacedNameToBuildId then namespacedNameToBuildId[key] else "";
      if build in queuesPerBuilds {
        RemoveFrom(build, namespace, name);
        Reindex(namespacedNameToBuildId - {key});
        DropIfEmpty(build);
        RemoveIsStep(before, namespace, name, View());
      }
      InvKept(before, Remove(namespace, name), View());
    }
  }
}
