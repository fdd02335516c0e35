/** The de-duplicating job queue: a Redis list guarded by a Redis set, filled by an atomic script and emptied in two
    separate commands, and the workers that consume it. */
module JobQueue {
  import opened Domain

  /** The list is pushed at the left and popped at the right. */
  datatype Queue = Queue(list: seq<string>, members: set<string>)

  function Push(q: Queue, id: string): Queue {
    if id in q.members then q else Queue([id] + q.list, q.members + {id})
  }

  function PushAll(q: Queue, ids: seq<string>): Queue {
    if ids == [] then q else Push(PushAll(q, ids[..|ids| - 1]), ids[|ids| - 1])
  }

  predicate Distinct(s: seq<string>) {
    forall i, j :: 0 <= i < j < |s| ==> s[i] != s[j]
  }

  /** `t` is `q` with `added` pushed: each of `ids` that was not in the set, once. */
  predicate Adds(q: Queue, ids: seq<string>, t: Queue, added: seq<string>) {
    && t.list == added + q.list && t.members == q.members + Elements(ids)
    && Distinct(added) && Elements(added) == Elements(ids) - q.members
  }

  lemma {:induction false} PushAllAdds(q: Queue, ids: seq<string>) returns (added: seq<string>)
    ensures Adds(q, ids, PushAll(q, ids), added)
    ensures |added| == |Elements(ids) - q.members|
  {
    hide Adds, Push, Elements;
    if ids == [] {
      added := [];
      NothingAdds(q);
    } else {
      added := PushAllAdds(q, ids[..|ids| - 1]);
      assert ids == ids[..|ids| - 1] + [ids[|ids| - 1]];
      added := PushAdds(q, ids[..|ids| - 1], PushAll(q, ids[..|ids| - 1]), added, ids[|ids| - 1]);
    }
    AddedCount(q, ids, PushAll(q, ids), added);
  }

  lemma NothingAdds(q: Queue)
    ensures Adds(q, [], q, [])
  {
    assert [] + q.list == q.list && q.members + Elements([]) == q.members && Elements([]) - q.members == Elements([]);
  }

  lemma PushAdds(q: Queue, ids: seq<string>, t: Queue, added: seq<string>, last: string) returns (more: seq<string>)
    requires Adds(q, ids, t, added)
    ensures Adds(q, ids + [last], Push(t, last), more)
  {
    assert Elements(ids + [last]) == Elements(ids) + {last};
    hide Elements, Distinct;
    more := added;
    if last !in t.members {
      more := [last] + added;
      assert more + q.list == [last] + t.list;
      DistinctCons(added, last);
    }
  }

  lemma {:induction false} DistinctCount(s: seq<string>)
    requires Distinct(s)
    ensures |Elements(s)| == |s|
  {
    if s != [] {
      var init, last := s[..|s| - 1], s[|s| - 1];
      DistinctCount(init);
      assert s == init + [last];
      assert Elements(s) == Elements(init) + {last};
    }
  }

  lemma AddedCount(q: Queue, ids: seq<string>, t: Queue, added: seq<string>)
    requires Adds(q, ids, t, added)
    ensures |added| == |Elements(ids) - q.members|
  {
    DistinctCount(added);
  }

  lemma DistinctCons(s: seq<string>, x: string)
    requires Distinct(s) && x !in Elements(s)
    ensures Distinct([x] + s) && Elements([x] + s) == Elements(s) + {x}
  {
    assert x !in s;
  }

  // ---------------------------------------------------------------- the commands

  class RedisQueue {
    var list: seq<string>
    var members: set<string>

    function View(): Queue
      reads this
    {
      Queue(list, members)
    }

    method Enqueue(id: string)
      modifies this
      ensures View() == Push(old(View()), id)
    {
      if id !in members {
        members := members + {id};
        list := [id] + list;
      }
    }

    /** The Lua script of the batch; no other command runs in between. */
    method EnqueueBatch(ids: seq<string>) returns (added: nat)
      modifies this
      ensures View() == PushAll(old(View()), ids)
      ensures added == |Elements(ids) - old(members)| && |list| == |old(list)| + added
    {
      added := 0;
      ghost var start := View();
      for index := 0 to |ids|
        invariant View() == PushAll(start, ids[..index])
        invariant |list| == |start.list| + added
      {
        assert ids[..index + 1][..index] == ids[..index];
        if ids[index] !in members {
          members := members + {ids[index]};
          list := [ids[index]] + list;
          added := added + 1;
        }
      }
      assert ids[..|ids|] == ids;
      var _ := PushAllAdds(start, ids);
    }

    method BRPop() returns (id: Option<string>)
      modifies this`list
      ensures if old(list) == [] then id == None && list == []
              else id == Some(old(list)[|old(list)| - 1]) && list == old(list)[..|old(list)| - 1]
    {
      if list == [] {
        return None;
      }
      id := Some(list[|list| - 1]);
      list := list[..|list| - 1];
    }

    method SRem(id: string)
      modifies this`members
      ensures members == old(members) - {id}
    {
      members := members - {id};
    }
  }

  // ---------------------------------------------------------------- producers and consumers

  /** Goroutine `index` of worker process `worker`. */
  datatype Routine = Routine(worker: nat, index: nat)

  datatype Phase = Idle | Popped(id: string) | Dequeued(id: string) | Verifying(id: string)

  /** `pushes` and `pops` count what went through the list; `stranded` are identifiers whose SREM did not take
      effect. */
  datatype State = State(
    queue: Queue, phases: map<Routine, Phase>, inFlight: set<(nat, string)>, stranded: set<string>,
    pushes: int, pops: int)

  datatype Event =
    | Enqueues(ids: seq<string>)
    | Pops(r: Routine)
    | Removes(r: Routine)
    | RemoveFails(r: Routine, effect: bool)
    | Claims(r: Routine)
    | Finishes(r: Routine)

  /** A batch of one is the single enqueue; SREM may fail with or without having removed the identifier, and a process
      that dies after BRPOP looks like a failure without effect. */
  ghost predicate Step(s: State, e: Event, t: State) {
    match e
    case Enqueues(ids) =>
      var q := PushAll(s.queue, ids);
      t == s.(queue := q, pushes := s.pushes + |q.list| - |s.queue.list|)
    case Pops(r) =>
      && r in s.phases && s.phases[r] == Idle && s.queue.list != []
      && var n := |s.queue.list| - 1;
      && t == s.(queue := s.queue.(list := s.queue.list[..n]), phases := s.phases[r := Popped(s.queue.list[n])],
                 pops := s.pops + 1)
    case Removes(r) =>
      && r in s.phases && s.phases[r].Popped?
      && t == s.(queue := s.queue.(members := s.queue.members - {s.phases[r].id}),
                 phases := s.phases[r := Dequeued(s.phases[r].id)])
    case RemoveFails(r, effect) =>
      && r in s.phases && s.phases[r].Popped?
      && var id := s.phases[r].id;
      && t == if effect then s.(queue := s.queue.(members := s.queue.members - {id}), phases := s.phases[r := Idle])
              else s.(stranded := s.stranded + {id}, phases := s.phases[r := Idle])
    case Claims(r) =>
      && r in s.phases && s.phases[r].Dequeued?
      && var id := s.phases[r].id;
      && t == if (r.worker, id) in s.inFlight then s.(phases := s.phases[r := Idle])
              else s.(inFlight := s.inFlight + {(r.worker, id)}, phases := s.phases[r := Verifying(id)])
    case Finishes(r) =>
      && r in s.phases && s.phases[r].Verifying?
      && t == s.(inFlight := s.inFlight - {(r.worker, s.phases[r].id)}, phases := s.phases[r := Idle])
  }

  /** Popped by a consumer that has not removed it from the set yet. */
  ghost predicate Held(s: State, id: string) {
    exists r :: r in s.phases && s.phases[r] == Popped(id)
  }

  ghost predicate MembersOk(s: State) {
    forall id :: id in s.queue.members <==> id in s.queue.list || Held(s, id) || id in s.stranded
  }

  /** The three places a member can be in exclude each other. */
  ghost predicate PartsDisjoint(s: State) {
    && Distinct(s.queue.list)
    && (forall id :: id in s.queue.list ==> !Held(s, id) && id !in s.stranded)
    && (forall r :: r in s.phases && s.phases[r].Popped? ==> s.phases[r].id !in s.stranded)
    && (forall r, r' :: r in s.phases && r' in s.phases && s.phases[r].Popped? && s.phases[r'] == s.phases[r] ==>
        r == r')
  }

  ghost predicate FlightOk(s: State) {
    && (forall r :: r in s.phases && s.phases[r].Verifying? ==> (r.worker, s.phases[r].id) in s.inFlight)
    && (forall r, r' ::
          && r in s.phases && r' in s.phases && r.worker == r'.worker
          && s.phases[r].Verifying? && s.phases[r'] == s.phases[r]
          ==> r == r')
  }

  ghost predicate QueueOk(s: State) {
    MembersOk(s) && PartsDisjoint(s) && FlightOk(s) && s.pushes == s.pops + |s.queue.list|
  }

  /** Some goroutine of the worker is verifying the mailbox. */
  ghost predicate Busy(s: State, worker: nat, id: string) {
    exists r :: r in s.phases && r.worker == worker && s.phases[r] == Verifying(id)
  }

  /** The in-flight table has no stale entry. */
  ghost predicate NoneStale(s: State) {
    forall h :: h in s.inFlight ==> Busy(s, h.0, h.1)
  }

  lemma StepKeepsFlights(s: State, e: Event, t: State)
    requires FlightOk(s) && NoneStale(s) && Step(s, e, t)
    ensures NoneStale(t)
  {
    forall h | h in t.inFlight ensures Busy(t, h.0, h.1) {
      if h in s.inFlight {
        var r :| r in s.phases && r.worker == h.0 && s.phases[r] == Verifying(h.1);
        assert r in t.phases && t.phases[r] == Verifying(h.1);
      } else {
        assert t.phases[e.r] == Verifying(h.1);
      }
    }
  }

  lemma EnqueueKeeps(s: State, ids: seq<string>, t: State)
    requires QueueOk(s) && Step(s, Enqueues(ids), t)
    ensures QueueOk(t)
  {
    var added := PushAllAdds(s.queue, ids);
    forall id ensures Held(t, id) <==> Held(s, id) { }
    assert forall id :: id in added <==> id in Elements(added);
    hide PushAll, Held, FlightOk, Distinct, Elements;
    SamePhases(s, t);
    DistinctJoin(added, s.queue.list);
  }

  lemma DistinctJoin(a: seq<string>, b: seq<string>)
    requires Distinct(a) && Distinct(b) && forall x :: x in a ==> x !in b
    ensures Distinct(a + b)
  {
    forall i, j | 0 <= i < j < |a + b| ensures (a + b)[i] != (a + b)[j] {
      if i < |a| <= j { assert (a + b)[i] in a && (a + b)[j] in b; }
    }
  }

  lemma SamePhases(s: State, t: State)
    requires FlightOk(s) && s.phases == t.phases && s.inFlight == t.inFlight
    ensures FlightOk(t)
  {
  }

  lemma PopKeeps(s: State, r: Routine, t: State)
    requires QueueOk(s) && Step(s, Pops(r), t)
    ensures QueueOk(t)
  {
    var n := |s.queue.list| - 1;
    var id := s.queue.list[n];
    assert s.queue.list == t.queue.list + [id];
    assert t.phases[r] == Popped(id);
    forall other ensures Held(t, other) <==> Held(s, other) || other == id { HeldAfter(s, r, t, other); }
    hide Held;
  }

  lemma HeldAfter(s: State, r: Routine, t: State, id: string)
    requires r in s.phases && r in t.phases && t.phases == s.phases[r := t.phases[r]]
    ensures Held(t, id) <==> t.phases[r] == Popped(id) || exists o ::
      o in s.phases && o != r && s.phases[o] == Popped(id)
    ensures Held(s, id) <==> s.phases[r] == Popped(id) || exists o ::
      o in s.phases && o != r && s.phases[o] == Popped(id)
  {
    if Held(t, id) && t.phases[r] != Popped(id) {
      var o :| o in t.phases && t.phases[o] == Popped(id);
      assert o in s.phases && o != r && s.phases[o] == Popped(id);
    }
    if exists o :: o in s.phases && o != r && s.phases[o] == Popped(id) {
      var o :| o in s.phases && o != r && s.phases[o] == Popped(id);
      assert t.phases[o] == Popped(id);
    }
  }

  lemma RemoveKeeps(s: State, r: Routine, t: State, id: string)
    requires QueueOk(s) && r in s.phases && s.phases[r] == Popped(id) && r in t.phases
      && t.phases == s.phases[r := t.phases[r]]
    requires (t.phases[r] == Idle || t.phases[r] == Dequeued(id)) && t.queue.list == s.queue.list
      && t.inFlight == s.inFlight
    requires t.pushes == s.pushes && t.pops == s.pops
    requires || (t.queue.members == s.queue.members - {id} && t.stranded == s.stranded)
             || (t.queue.members == s.queue.members && t.stranded == s.stranded + {id})
    ensures QueueOk(t)
  {
    assert Held(s, id);
    forall other ensures Held(t, other) <==> Held(s, other) && other != id { HeldAfter(s, r, t, other); }
    hide Held;
  }

  lemma ClaimKeeps(s: State, r: Routine, t: State)
    requires QueueOk(s) && (Step(s, Claims(r), t) || Step(s, Finishes(r), t))
    ensures QueueOk(t)
  {
    forall other ensures Held(t, other) <==> Held(s, other) { HeldAfter(s, r, t, other); }
    hide Held;
  }

  lemma StepKeeps(s: State, e: Event, t: State)
    requires QueueOk(s) && Step(s, e, t)
    ensures QueueOk(t)
  {
    hide QueueOk;
    match e
    case Enqueues(ids) => EnqueueKeeps(s, ids, t);
    case Pops(r) => PopKeeps(s, r, t);
    case Removes(r) => RemoveKeeps(s, r, t, s.phases[r].id);
    case RemoveFails(r, _) => RemoveKeeps(s, r, t, s.phases[r].id);
    case Claims(r) => ClaimKeeps(s, r, t);
    case Finishes(r) => ClaimKeeps(s, r, t);
  }

  datatype Run = Run(states: seq<State>, events: seq<Event>)

  ghost predicate Start(s: State) {
    s.queue == Queue([], {}) && s.inFlight == {} && s.stranded == {} && s.pushes == 0 && s.pops == 0
    && forall r :: r in s.phases ==> s.phases[r] == Idle
  }

  ghost predicate IsRun(r: Run) {
    && |r.states| == |r.events| + 1 && Start(r.states[0])
    && forall i :: 0 <= i < |r.events| ==> Step(r.states[i], r.events[i], r.states[i + 1])
  }

  lemma {:induction false} RunKeeps(r: Run, i: nat)
    requires IsRun(r) && i < |r.states|
    ensures QueueOk(r.states[i]) && NoneStale(r.states[i])
  {
    if i > 0 {
      RunKeeps(r, i - 1);
      assert Step(r.states[i - 1], r.events[i - 1], r.states[i]);
      hide MembersOk, PartsDisjoint, FlightOk, NoneStale, Step, IsRun;
      StepKeeps(r.states[i - 1], r.events[i - 1], r.states[i]);
      StepKeepsFlights(r.states[i - 1], r.events[i - 1], r.states[i]);
    }
  }

  /** With any number of producers and consumers: the list has no duplicate; the set is the list, the popped and the
      stranded identifiers, and these exclude each other; pushes are pops plus what is in the list; and no two
      goroutines of one worker ever verify the same mailbox at once, and its in-flight table names just those. */
  lemma QueueSafe(r: Run, i: nat)
    requires IsRun(r) && i < |r.states|
    ensures var s := r.states[i];
      && Distinct(s.queue.list) && s.pushes == s.pops + |s.queue.list|
      && (forall id :: id in s.queue.members <==> id in s.queue.list || Held(s, id) || id in s.stranded)
      && (forall id ::
            && !(id in s.queue.list && Held(s, id)) && !(id in s.queue.list && id in s.stranded)
            && !(Held(s, id) && id in s.stranded))
      && (forall a, b :: a in s.phases && b in s.phases && a != b && s.phases[a].Popped? ==> s.phases[b] != s.phases[a])
      && (forall a, b :: a in s.phases && b in s.phases && a != b && a.worker == b.worker && s.phases[a].Verifying?
            ==> s.phases[b] != s.phases[a])
      && (forall w: nat, id :: (w, id) in s.inFlight <==> Busy(s, w, id))
  {
    RunKeeps(r, i);
    hide IsRun;
  }

  /** A stranded identifier stays in the set for ever: no enqueue puts it back on the list and no consumer gets it. */
  lemma {:induction false} StrandedForever(r: Run, i: nat, j: nat, id: string)
    requires IsRun(r) && i <= j < |r.states| && id in r.states[i].stranded
    ensures id in r.states[j].stranded && id in r.states[j].queue.members
    ensures id !in r.states[j].queue.list && !Held(r.states[j], id)
    decreases j - i
  {
    if i < j {
      StrandedForever(r, i, j - 1, id);
      assert Step(r.states[j - 1], r.events[j - 1], r.states[j]);
    }
    RunKeeps(r, j);
    hide IsRun;
  }
}
