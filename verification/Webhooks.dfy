/** Webhook deliveries: claimed by workers, completed, retried with growing delays, and given up after five attempts. */
module Webhooks {
  import opened Domain

  datatype DeliveryStatus = Pending | Processing | Retrying | Delivered | Failed

  datatype Delivery = Delivery(endpointId: string, status: DeliveryStatus, attempts: nat, nextRetryAt: int)

  type Deliveries = map<string, Delivery>

  /** Seconds to wait after each failed attempt. */
  const DELAYS: seq<int> := [60, 300, 1800, 7200, 43200]

  const MAX_ATTEMPTS: nat := 5

  predicate Claimable(d: Delivery) {
    d.status == Pending || d.status == Retrying
  }

  predicate Due(d: Delivery, now: int) {
    Claimable(d) && d.nextRetryAt <= now
  }

  function DueIds(ds: Deliveries, now: int): set<string> {
    set id | id in ds && Due(ds[id], now)
  }

  /** A delivery to a disabled endpoint fails without an attempt. */
  function ClaimOne(d: Delivery, enabled: set<string>): Delivery {
    if d.endpointId in enabled then d.(status := Processing, attempts := d.attempts + 1) else d.(status := Failed)
  }

  function Claim(ds: Deliveries, ids: set<string>, enabled: set<string>): Deliveries {
    map id | id in ds :: if id in ids then ClaimOne(ds[id], enabled) else ds[id]
  }

  /** The jobs handed to the worker. */
  function Jobs(ds: Deliveries, ids: set<string>, enabled: set<string>): set<string> {
    set id | id in ids && id in ds && ds[id].endpointId in enabled
  }

  function FailOne(d: Delivery, now: int): (f: Delivery)
    ensures f.status == (if d.attempts < 5 then Retrying else Failed)
    ensures d.attempts <= 1 ==> f.nextRetryAt == now + 60
    ensures d.attempts == 2 ==> f.nextRetryAt == now + 300
    ensures d.attempts == 3 ==> f.nextRetryAt == now + 1800
    ensures d.attempts == 4 ==> f.nextRetryAt == now + 7200
    ensures d.attempts >= 5 ==> f.nextRetryAt == now + 43200
    ensures f.endpointId == d.endpointId && f.attempts == d.attempts
  {
    var index := if d.attempts == 0 then 0 else if d.attempts > |DELAYS| then |DELAYS| - 1 else d.attempts - 1;
    d.(status := if d.attempts >= |DELAYS| then Failed else Retrying, nextRetryAt := now + DELAYS[index])
  }

  /** The row of a job that failed, when `attempts` is what the worker read of it before. */
  function FailAs(d: Delivery, attempts: nat, now: int): Delivery {
    var f := FailOne(d.(attempts := attempts), now);
    d.(status := f.status, nextRetryAt := f.nextRetryAt)
  }

  predicate Later(a: Deliveries, b: Deliveries) {
    forall id :: id in a ==> id in b && a[id].attempts <= b[id].attempts
  }

  // ---------------------------------------------------------------- the repository

  class Repository {
    var deliveries: Deliveries

    /** Some due rows that no other transaction holds. */
    method SelectDue(atMost: nat, now: int) returns (rows: seq<string>)
      ensures |rows| <= atMost && DueRows(deliveries, rows, now)
    {
      assert DueRows(deliveries, [], now);
      rows :| |rows| <= atMost && DueRows(deliveries, rows, now);
    }

    /** `readable` are the endpoints whose secret decrypts; one that does not rolls the whole claim back. */
    method ClaimWebhookJobs(limit: int, now: int, enabled: set<string>, readable: set<string>)
      returns (jobs: seq<string>, ok: bool, ghost rows: seq<string>)
      modifies this
      ensures |rows| <= (if limit < 1 || limit > 100 then 20 else limit) && DueRows(old(deliveries), rows, now)
      ensures ok ==> deliveries == Claim(old(deliveries), Elements(rows), enabled)
      ensures ok ==> Elements(jobs) == Jobs(old(deliveries), Elements(rows), enabled)
      ensures !ok ==> deliveries == old(deliveries) && jobs == []
      ensures ok <==> forall id :: id in rows && old(deliveries)[id].endpointId in enabled ==>
        old(deliveries)[id].endpointId in readable
      ensures forall id :: id in rows ==>
        && id in old(deliveries) && old(deliveries)[id].nextRetryAt <= now
        && (old(deliveries)[id].status == Pending || old(deliveries)[id].status == Retrying)
      ensures ok ==> deliveries.Keys == old(deliveries).Keys && forall id :: id in deliveries ==>
        var d := old(deliveries)[id];
        deliveries[id] == if id !in rows then d
                          else if d.endpointId in enabled then d.(status := Processing, attempts := d.attempts + 1)
                          else d.(status := Failed)
      ensures ok ==> forall id :: id in jobs <==> id in rows && old(deliveries)[id].endpointId in enabled
    {
      var found := SelectDue(if limit < 1 || limit > 100 then 20 else limit, now);
      var before := deliveries;
      rows, jobs := found, [];
      NothingClaimed(before, enabled);
      hide Claim, Jobs, Elements;
      for i := 0 to |found|
        invariant deliveries == Claim(before, Elements(found[..i]), enabled)
        invariant Elements(jobs) == Jobs(before, Elements(found[..i]), enabled)
        invariant forall j :: 0 <= j < i && before[found[j]].endpointId in enabled ==>
          before[found[j]].endpointId in readable
      {
        var id := found[i];
        ClaimGrows(before, found, i, now, enabled);
        var delivery := deliveries[id];
        if delivery.endpointId !in enabled {
          deliveries := deliveries[id := delivery.(status := Failed)];
          continue;
        }
        if delivery.endpointId !in readable {
          deliveries := before;
          return [], false, found;
        }
        delivery := delivery.(status := Processing, attempts := delivery.attempts + 1);
        deliveries := deliveries[id := delivery];
        AddElement(jobs, id);
        jobs := jobs + [id];
      }
      assert found[..|found|] == found;
      ClaimMeans(before, found, enabled, jobs);
      ok := true;
    }

    method CompleteWebhookJob(id: string)
      modifies this
      ensures deliveries == if id in old(deliveries)
        then old(deliveries)[id := old(deliveries)[id].(status := Delivered)] else old(deliveries)
    {
      if id in deliveries {
        deliveries := deliveries[id := deliveries[id].(status := Delivered)];
      }
    }

    /** What other transactions may do between two statements: rows stay, and attempts only grow. */
    method OthersRun()
      modifies this
      ensures Later(old(deliveries), deliveries)
    {
      var next: Deliveries := *;
      if Later(deliveries, next) {
        deliveries := next;
      }
    }

    /** The attempts are read by one statement and the row is written by another; `between` is the table in between. */
    method FailWebhookJob(id: string, now: int) returns (found: bool, ghost between: Deliveries)
      modifies this
      ensures found <==> id in old(deliveries)
      ensures Later(old(deliveries), between)
      ensures deliveries == if found then between[id := FailAs(between[id], old(deliveries)[id].attempts, now)]
        else between
    {
      between := deliveries;
      if id !in deliveries {
        return false, between;
      }
      var row := deliveries[id];
      var status := Retrying;
      if row.attempts >= |DELAYS| {
        status := Failed;
      }
      var delayIndex := row.attempts - 1;
      if delayIndex < 0 {
        delayIndex := 0;
      }
      if delayIndex >= |DELAYS| {
        delayIndex := |DELAYS| - 1;
      }
      OthersRun();
      between := deliveries;
      deliveries := deliveries[id := deliveries[id].(status := status, nextRetryAt := now + DELAYS[delayIndex])];
      found := true;
    }

    method RetryWebhookJob(id: string, owned: bool, now: int) returns (found: bool)
      modifies this
      ensures found <==> id in old(deliveries) && owned
      ensures deliveries == if found
        then old(deliveries)[id := old(deliveries)[id].(status := Retrying, nextRetryAt := now)] else old(deliveries)
    {
      found := id in deliveries && owned;
      if found {
        deliveries := deliveries[id := deliveries[id].(status := Retrying, nextRetryAt := now)];
      }
    }
  }

  predicate DueRows(ds: Deliveries, rows: seq<string>, now: int) {
    && (forall i :: 0 <= i < |rows| ==> rows[i] in ds && Due(ds[rows[i]], now))
    && (forall i, j :: 0 <= i < j < |rows| ==> rows[i] != rows[j])
  }

  lemma NothingClaimed(ds: Deliveries, enabled: set<string>)
    ensures forall none: seq<string> :: none == [] ==>
      Claim(ds, Elements(none), enabled) == ds && Elements(none) == Jobs(ds, Elements(none), enabled)
  {
  }

  lemma ClaimMeans(ds: Deliveries, rows: seq<string>, enabled: set<string>, jobs: seq<string>)
    requires Elements(jobs) == Jobs(ds, Elements(rows), enabled) && forall id :: id in rows ==> id in ds
    ensures forall id :: id in jobs <==> id in rows && ds[id].endpointId in enabled
    ensures var after := Claim(ds, Elements(rows), enabled);
      && after.Keys == ds.Keys
      && forall id :: id in after ==>
           after[id] == if id !in rows then ds[id]
                        else if ds[id].endpointId in enabled
                        then ds[id].(status := Processing, attempts := ds[id].attempts + 1)
                        else ds[id].(status := Failed)
  {
    assert forall id :: id in jobs <==> id in Elements(jobs);
  }

  lemma AddElement(s: seq<string>, x: string)
    ensures Elements(s + [x]) == Elements(s) + {x}
  {
  }

  lemma ClaimGrows(ds: Deliveries, rows: seq<string>, i: nat, now: int, enabled: set<string>)
    requires i < |rows| && DueRows(ds, rows, now)
    ensures var was := Elements(rows[..i]); var more := Elements(rows[..i + 1]); var id := rows[i];
      && id in ds && id in Claim(ds, was, enabled) && Claim(ds, was, enabled)[id] == ds[id]
      && Claim(ds, more, enabled) == Claim(ds, was, enabled)[id := ClaimOne(ds[id], enabled)]
      && Jobs(ds, more, enabled) == if ds[id].endpointId in enabled then Jobs(ds, was, enabled) + {id}
        else Jobs(ds, was, enabled)
  {
    assert rows[..i + 1] == rows[..i] + [rows[i]];
    AddElement(rows[..i], rows[i]);
    assert rows[i] !in Elements(rows[..i]);
  }

  // ---------------------------------------------------------------- any number of workers

  /** Each claimed batch has its own worker number. `holders` are the workers at work on a delivery, each with the
      attempts it has read of the row once its job failed; `retries` counts the manual retries of each delivery. */
  datatype State = State(deliveries: Deliveries, holders: map<(nat, string), Option<nat>>, retries: map<string, nat>)

  datatype Event =
    | Enqueues(id: string, endpointId: string, at: int)
    | Claims(worker: nat, ids: set<string>, enabled: set<string>, at: int)
    | Completes(worker: nat, id: string)
    | Reads(worker: nat, id: string)
    | Fails(worker: nat, id: string, at: int)
    | Dies(worker: nat, id: string)
    | Retries(id: string, at: int)

  function RetryCount(s: State, id: string): nat {
    if id in s.retries then s.retries[id] else 0
  }

  ghost predicate Step(s: State, e: Event, t: State) {
    match e
    case Enqueues(id, endpointId, at) =>
      id !in s.deliveries && t == s.(deliveries := s.deliveries[id := Delivery(endpointId, Pending, 0, at)])
    case Claims(worker, ids, enabled, at) =>
      && ids <= DueIds(s.deliveries, at) && (forall id :: id in ids ==> (worker, id) !in s.holders)
      && t == s.(deliveries := Claim(s.deliveries, ids, enabled),
                 holders := s.holders + map id | id in Jobs(s.deliveries, ids, enabled) :: (worker, id) := None)
    case Completes(worker, id) =>
      && (worker, id) in s.holders && id in s.deliveries
      && t == s.(deliveries := s.deliveries[id := s.deliveries[id].(status := Delivered)],
                 holders := s.holders - {(worker, id)})
    case Reads(worker, id) =>
      && (worker, id) in s.holders && id in s.deliveries
      && t == s.(holders := s.holders[(worker, id) := Some(s.deliveries[id].attempts)])
    case Fails(worker, id, at) =>
      && (worker, id) in s.holders && id in s.deliveries && s.holders[(worker, id)].Some?
      && t == s.(deliveries := s.deliveries[id := FailAs(s.deliveries[id], s.holders[(worker, id)].value, at)],
                 holders := s.holders - {(worker, id)})
    case Dies(worker, id) => t == s.(holders := s.holders - {(worker, id)})
    case Retries(id, at) =>
      && id in s.deliveries
      && t == s.(deliveries := s.deliveries[id := s.deliveries[id].(status := Retrying, nextRetryAt := at)],
                 retries := s.retries[id := RetryCount(s, id) + 1])
  }

  function Workers(s: State, id: string): set<nat> {
    set h | h in s.holders && h.1 == id :: h.0
  }

  /** The workers that read so few attempts that their failure will ask for another one. */
  function Hopeful(s: State, id: string): set<nat> {
    set h | h in s.holders && h.1 == id && s.holders[h].Some? && s.holders[h].value < MAX_ATTEMPTS :: h.0
  }

  function Open(d: Delivery): nat {
    if Claimable(d) then 1 else 0
  }

  /** Only a manual retry adds to the claims that can still come of a delivery: that by its status, and one by each
      worker on it; after five attempts only by those that read the row before. */
  predicate AttemptsOk(s: State, id: string)
    requires id in s.deliveries
  {
    var d := s.deliveries[id];
    && |Workers(s, id)| + Open(d) <= 1 + RetryCount(s, id)
    && (d.attempts >= MAX_ATTEMPTS ==> d.attempts + Open(d) + |Hopeful(s, id)| <= MAX_ATTEMPTS + RetryCount(s, id))
  }

  predicate HolderOk(s: State, h: (nat, string))
    requires h in s.holders
  {
    && h.1 in s.deliveries && s.deliveries[h.1].attempts > 0
    && (s.holders[h].Some? ==> 0 < s.holders[h].value <= s.deliveries[h.1].attempts)
  }

  ghost predicate Bounded(s: State) {
    && (forall id :: id in s.deliveries ==> AttemptsOk(s, id))
    && (forall h :: h in s.holders ==> HolderOk(s, h))
  }

  lemma Smaller(a: set<nat>, b: set<nat>)
    requires a <= b
    ensures |a| <= |b|
  {
    assert b == a + (b - a);
  }

  lemma HopefulWork(s: State, id: string)
    ensures |Hopeful(s, id)| <= |Workers(s, id)|
  {
    Smaller(Hopeful(s, id), Workers(s, id));
  }

  /** Who holds what after a claim. */
  lemma ClaimHolds(s: State, e: Event, t: State)
    requires e.Claims? && Step(s, e, t)
    ensures forall h :: h in t.holders <==>
      h in s.holders || (h.0 == e.worker && h.1 in Jobs(s.deliveries, e.ids, e.enabled))
    ensures forall h :: h in t.holders ==> if h in s.holders then t.holders[h] == s.holders[h] else t.holders[h].None?
    ensures forall id :: id in e.ids ==> (e.worker, id) !in s.holders
    ensures t.retries == s.retries && t.deliveries == Claim(s.deliveries, e.ids, e.enabled)
    ensures forall id :: id in e.ids ==> id in s.deliveries && Claimable(s.deliveries[id])
  {
  }

  lemma ClaimKeepsAttempts(s: State, e: Event, t: State, id: string)
    requires Bounded(s) && e.Claims? && Step(s, e, t) && id in t.deliveries
    ensures AttemptsOk(t, id)
  {
    ClaimHolds(s, e, t);
    hide Step;
    assert AttemptsOk(s, id);
    hide Bounded;
    HopefulWork(s, id);
    HopefulWork(t, id);
    ClaimKeepsHopeful(s, e, t, id);
    ClaimAddsWorker(s, e, t, id);
    hide Workers, Hopeful;
  }

  lemma ClaimKeepsHopeful(s: State, e: Event, t: State, id: string)
    requires e.Claims? && Step(s, e, t)
    ensures Hopeful(t, id) == Hopeful(s, id)
  {
    ClaimHolds(s, e, t);
    hide Step;
    forall w | w in Hopeful(t, id) ensures w in Hopeful(s, id) { assert (w, id) in t.holders; }
    forall w | w in Hopeful(s, id) ensures w in Hopeful(t, id) { assert (w, id) in t.holders; }
  }

  lemma ClaimAddsWorker(s: State, e: Event, t: State, id: string)
    requires e.Claims? && Step(s, e, t)
    ensures |Workers(t, id)| == |Workers(s, id)| + if id in Jobs(s.deliveries, e.ids, e.enabled) then 1 else 0
  {
    ClaimHolds(s, e, t);
    WorkersAre(s, id);
    WorkersAre(t, id);
    JobsAreClaimed(s, e);
    hide Step, Jobs, Claim, Workers;
    if id in Jobs(s.deliveries, e.ids, e.enabled) {
      assert Workers(t, id) == Workers(s, id) + {e.worker};
    } else {
      assert Workers(t, id) == Workers(s, id);
    }
  }

  lemma WorkersAre(s: State, id: string)
    ensures forall w :: w in Workers(s, id) <==> (w, id) in s.holders
  {
  }

  lemma JobsAreClaimed(s: State, e: Event)
    requires e.Claims?
    ensures forall id :: id in Jobs(s.deliveries, e.ids, e.enabled) ==> id in e.ids
  {
  }

  lemma ClaimKeepsHolders(s: State, e: Event, t: State)
    requires Bounded(s) && e.Claims? && Step(s, e, t)
    ensures forall h :: h in t.holders ==> HolderOk(t, h)
  {
    forall h | h in t.holders ensures HolderOk(t, h) {
      if h in s.holders { assert HolderOk(s, h); }
    }
  }

  /** The worker leaves, and the row opens only if it was hopeful. */
  lemma LeaveKeepsAttempts(s: State, t: State, worker: nat, id: string, d: Delivery)
    requires id in s.deliveries && AttemptsOk(s, id) && (worker, id) in s.holders
      && d.attempts == s.deliveries[id].attempts
    requires Claimable(d) ==> worker in Hopeful(s, id)
    requires t == s.(deliveries := s.deliveries[id := d], holders := s.holders - {(worker, id)})
    ensures AttemptsOk(t, id)
  {
    assert Workers(t, id) == Workers(s, id) - {worker} && worker in Workers(s, id);
    assert Hopeful(t, id) == Hopeful(s, id) - {worker};
  }

  lemma OthersKeepAttempts(s: State, t: State, id: string)
    requires id in s.deliveries && AttemptsOk(s, id) && id in t.deliveries && t.deliveries[id] == s.deliveries[id]
    requires RetryCount(t, id) == RetryCount(s, id)
    requires Workers(t, id) <= Workers(s, id)
      && (s.deliveries[id].attempts >= MAX_ATTEMPTS ==> Hopeful(t, id) <= Hopeful(s, id))
    ensures AttemptsOk(t, id)
  {
    Smaller(Workers(t, id), Workers(s, id));
    if s.deliveries[id].attempts >= MAX_ATTEMPTS { Smaller(Hopeful(t, id), Hopeful(s, id)); }
  }

  lemma LeaveKeeps(s: State, e: Event, t: State)
    requires Bounded(s) && (e.Completes? || e.Fails?) && Step(s, e, t)
    ensures Bounded(t)
  {
    forall id | id in t.deliveries ensures AttemptsOk(t, id) {
      assert AttemptsOk(s, id);
      if id == e.id {
        LeaveKeepsAttempts(s, t, e.worker, id, t.deliveries[id]);
      } else {
        OthersKeepAttempts(s, t, id);
      }
    }
    forall h | h in t.holders ensures HolderOk(t, h) { assert HolderOk(s, h); }
  }

  lemma ReadKeeps(s: State, e: Event, t: State)
    requires Bounded(s) && (e.Reads? || e.Dies?) && Step(s, e, t)
    ensures Bounded(t)
  {
    forall id | id in t.deliveries ensures AttemptsOk(t, id) {
      assert AttemptsOk(s, id);
      OthersKeepAttempts(s, t, id);
    }
    forall h | h in t.holders ensures HolderOk(t, h) {
      if h in s.holders { assert HolderOk(s, h); }
    }
  }

  lemma RowKeeps(s: State, e: Event, t: State)
    requires Bounded(s) && (e.Enqueues? || e.Retries?) && Step(s, e, t)
    ensures Bounded(t)
  {
    forall h | h in t.holders ensures HolderOk(t, h) { assert HolderOk(s, h); }
    forall id | id in t.deliveries ensures AttemptsOk(t, id) {
      assert Workers(t, id) == Workers(s, id) && Hopeful(t, id) == Hopeful(s, id);
      if id in s.deliveries {
        assert AttemptsOk(s, id);
        HopefulWork(s, id);
      } else {
        forall h | h in s.holders ensures h.1 in s.deliveries { assert HolderOk(s, h); }
        assert Workers(s, id) == {} && Hopeful(s, id) == {};
      }
    }
  }

  lemma StepKeeps(s: State, e: Event, t: State)
    requires Bounded(s) && Step(s, e, t)
    ensures Bounded(t)
  {
    hide Bounded, Step, AttemptsOk, HolderOk;
    match e
    case Claims(_, _, _, _) =>
      ClaimKeeps(s, e, t);
    case Completes(_, _) => LeaveKeeps(s, e, t);
    case Fails(_, _, _) => LeaveKeeps(s, e, t);
    case Reads(_, _) => ReadKeeps(s, e, t);
    case Dies(_, _) => ReadKeeps(s, e, t);
    case _ => RowKeeps(s, e, t);
  }

  lemma ClaimKeeps(s: State, e: Event, t: State)
    requires Bounded(s) && e.Claims? && Step(s, e, t)
    ensures Bounded(t)
  {
    ClaimKeepsHolders(s, e, t);
    forall id | id in t.deliveries ensures AttemptsOk(t, id) {
      ClaimKeepsAttempts(s, e, t, id);
    }
  }

  datatype Run = Run(states: seq<State>, events: seq<Event>)

  ghost predicate IsRun(r: Run) {
    && |r.states| == |r.events| + 1 && r.states[0] == State(map[], map[], map[])
    && forall i :: 0 <= i < |r.events| ==> Step(r.states[i], r.events[i], r.states[i + 1])
  }

  lemma {:induction false} RunKeeps(r: Run, i: nat)
    requires IsRun(r) && i < |r.states|
    ensures Bounded(r.states[i])
  {
    hide Step;
    if i > 0 {
      RunKeeps(r, i - 1);
      hide Bounded;
      StepKeeps(r.states[i - 1], r.events[i - 1], r.states[i]);
    }
  }

  /** Attempts never exceed five plus the manual retries, whatever workers claim, finish, fail or die and however late a
      failure is written; and every delivery at work has had an attempt, so the backoff index is in range. */
  lemma AttemptsBounded(r: Run, i: nat)
    requires IsRun(r) && i < |r.states|
    ensures var s := r.states[i];
      && (forall id | id in s.deliveries :: s.deliveries[id].attempts <= 5 + RetryCount(s, id))
      && (forall h | h in s.holders ::
            && h.1 in s.deliveries && s.deliveries[h.1].attempts > 0
            && (s.holders[h].Some? ==> 0 < s.holders[h].value <= s.deliveries[h.1].attempts))
  {
    RunKeeps(r, i);
    hide IsRun;
    forall id | id in r.states[i].deliveries ensures AttemptsOk(r.states[i], id) { }
    forall h | h in r.states[i].holders ensures HolderOk(r.states[i], h) { }
  }

  // ---------------------------------------------------------------- one worker at a time

  predicate Held(s: State, id: string) {
    Workers(s, id) != {}
  }

  ghost predicate TwoWorkers(s: State, id: string) {
    exists v, w :: (v, id) in s.holders && (w, id) in s.holders && v != w
  }

  /** At most one worker, and while there is one the row says so. */
  ghost predicate Exclusive(s: State, id: string) {
    !TwoWorkers(s, id) && (Held(s, id) ==> id in s.deliveries && s.deliveries[id].status == Processing)
  }

  /** Two workers are on the delivery, or one more step can put the second one there. */
  ghost predicate Shared(s: State, id: string) {
    exists e, t :: Step(s, e, t) && TwoWorkers(t, id)
  }

  lemma {:induction false} Unused(numbers: set<nat>) returns (n: nat)
    ensures forall m :: m in numbers ==> m < n
  {
    if numbers == {} {
      n := 0;
    } else {
      var m :| m in numbers;
      n := Unused(numbers - {m});
      n := if n > m then n else m + 1;
      assert forall k :: k in numbers ==> k == m || k in numbers - {m};
    }
  }

  lemma ClaimPutsAnother(s: State, id: string) returns (e: Event, t: State)
    requires Held(s, id) && id in s.deliveries && Claimable(s.deliveries[id])
    ensures e.Claims? && Step(s, e, t) && TwoWorkers(t, id)
  {
    var d := s.deliveries[id];
    var v :| v in Workers(s, id);
    var w := Unused(Workers(s, id));
    e := Claims(w, {id}, {d.endpointId}, d.nextRetryAt);
    assert (w, id) in s.holders ==> w in Workers(s, id);
    t := s.(deliveries := Claim(s.deliveries, {id}, {d.endpointId}),
            holders := s.holders + map j | j in Jobs(s.deliveries, {id}, {d.endpointId}) :: (w, j) := None);
    assert id in Jobs(s.deliveries, {id}, {d.endpointId});
    assert (v, id) in t.holders && (w, id) in t.holders && v != w;
  }

  lemma SharedExactly(s: State, id: string)
    ensures Shared(s, id) <==> TwoWorkers(s, id) || (Held(s, id) && id in s.deliveries && Claimable(s.deliveries[id]))
  {
    if TwoWorkers(s, id) {
      var w := Unused(Workers(s, id));
      assert (w, id) in s.holders ==> w in Workers(s, id);
      assert s.holders - {(w, id)} == s.holders;
      assert Step(s, Dies(w, id), s);
    } else if Held(s, id) && id in s.deliveries && Claimable(s.deliveries[id]) {
      var e, t := ClaimPutsAnother(s, id);
    } else if Shared(s, id) {
      var e, t :| Step(s, e, t) && TwoWorkers(t, id);
      var v, w :| (v, id) in t.holders && (w, id) in t.holders && v != w;
      NotAnother(s, e, t, v, w, id);
    }
  }

  lemma NotAnother(s: State, e: Event, t: State, v: nat, w: nat, id: string)
    requires Step(s, e, t) && (v, id) in t.holders && (w, id) in t.holders && v != w
    ensures TwoWorkers(s, id) || (Held(s, id) && id in s.deliveries && Claimable(s.deliveries[id]))
  {
    assert (v, id) in s.holders ==> v in Workers(s, id);
    assert (w, id) in s.holders ==> w in Workers(s, id);
  }

  predicate RetriedInHand(s: State, e: Event, id: string) {
    e.Retries? && e.id == id && Held(s, id)
  }

  lemma StepKeepsExclusive(s: State, e: Event, t: State, id: string)
    requires Bounded(s) && Exclusive(s, id) && Step(s, e, t) && !RetriedInHand(s, e, id)
    ensures Exclusive(t, id)
  {
    HeldBySomebody(s, id);
    HeldBySomebody(t, id);
    hide Step, Bounded, Exclusive, RetriedInHand, Held;
    if e.Claims? { ClaimKeepsExclusive(s, e, t, id); } else { OtherKeepsExclusive(s, e, t, id); }
  }

  lemma ClaimKeepsExclusive(s: State, e: Event, t: State, id: string)
    requires Exclusive(s, id) && Step(s, e, t) && e.Claims?
    requires (Held(s, id) <==> exists w :: (w, id) in s.holders) && (Held(t, id) <==> exists w :: (w, id) in t.holders)
    ensures Exclusive(t, id)
  {
    ClaimHolds(s, e, t);
    hide Step, Workers;
  }

  lemma OtherKeepsExclusive(s: State, e: Event, t: State, id: string)
    requires Bounded(s) && Exclusive(s, id) && Step(s, e, t) && !e.Claims? && !RetriedInHand(s, e, id)
    requires (Held(s, id) <==> exists w :: (w, id) in s.holders) && (Held(t, id) <==> exists w :: (w, id) in t.holders)
    ensures Exclusive(t, id)
  {
    LeavesNoNew(s, e, t);
    hide Claim, Workers, FailAs, Claimable, Bounded;
  }

  lemma HeldBySomebody(s: State, id: string)
    ensures Held(s, id) <==> exists w :: (w, id) in s.holders
  {
    if Held(s, id) {
      var w :| w in Workers(s, id);
    }
    assert forall w :: (w, id) in s.holders ==> w in Workers(s, id);
  }

  lemma LeavesNoNew(s: State, e: Event, t: State)
    requires Bounded(s) && Step(s, e, t) && !e.Claims?
    ensures forall h :: h in t.holders ==> h in s.holders
    ensures e.Enqueues? ==> forall h :: h in t.holders ==> h.1 != e.id
  {
    if e.Enqueues? {
      forall h | h in t.holders ensures h.1 != e.id { assert HolderOk(s, h); }
    }
  }

  /** No manual retry finds the delivery with a worker. */
  ghost predicate Undisturbed(r: Run, i: nat, j: nat, id: string)
    requires IsRun(r) && i <= j < |r.states|
  {
    forall k :: i <= k < j ==> !RetriedInHand(r.states[k], r.events[k], id)
  }

  lemma {:induction false} RunKeepsExclusive(r: Run, i: nat, j: nat, id: string)
    requires IsRun(r) && i <= j < |r.states| && !Held(r.states[i], id) && Undisturbed(r, i, j, id)
    ensures Exclusive(r.states[j], id)
    decreases j
  {
    if i == j {
      HeldBySomebody(r.states[i], id);
    } else {
      assert Undisturbed(r, i, j - 1, id);
      RunKeepsExclusive(r, i, j - 1, id);
      RunKeeps(r, j - 1);
      assert Step(r.states[j - 1], r.events[j - 1], r.states[j])
        && !RetriedInHand(r.states[j - 1], r.events[j - 1], id);
      hide Step, Bounded, Exclusive, RetriedInHand, IsRun;
      StepKeepsExclusive(r.states[j - 1], r.events[j - 1], r.states[j], id);
    }
  }

  /** From any moment at which nobody is at work on a delivery: a second worker gets it, or can get it by one more
      step, if and only if somebody retries it by hand while a worker is on it. */
  lemma SharedAfterRetryExactly(r: Run, i: nat, j: nat, id: string)
    requires IsRun(r) && i <= j < |r.states| && !Held(r.states[i], id)
    ensures (exists k :: i <= k <= j && Shared(r.states[k], id)) <==> !Undisturbed(r, i, j, id)
  {
    if Undisturbed(r, i, j, id) {
      forall k | i <= k <= j ensures !Shared(r.states[k], id) {
        assert Undisturbed(r, i, k, id);
        RunKeepsExclusive(r, i, k, id);
        SharedExactly(r.states[k], id);
      }
    } else {
      var k :| i <= k < j && RetriedInHand(r.states[k], r.events[k], id);
      assert Step(r.states[k], r.events[k], r.states[k + 1]);
      var next := r.states[k + 1];
      assert Workers(next, id) == Workers(r.states[k], id);
      SharedExactly(next, id);
    }
  }

  lemma EnqueuesOne(id: string, endpointId: string, at: int)
    ensures var s := State(map[], map[], map[]);
      Step(s, Enqueues(id, endpointId, at), s.(deliveries := map[id := Delivery(endpointId, Pending, 0, at)]))
  {
  }

  lemma RetriesOne(s: State, id: string, at: int) returns (t: State)
    requires id in s.deliveries && s.retries == map[] && (1, id) in s.holders
    ensures Step(s, Retries(id, at), t) && Held(s, id) && t.holders == s.holders
    ensures id in t.deliveries && t.deliveries[id] == s.deliveries[id].(status := Retrying, nextRetryAt := at)
  {
    assert 1 in Workers(s, id);
    hide Claim, FailAs, Jobs, Workers;
    t := s.(deliveries := s.deliveries[id := s.deliveries[id].(status := Retrying, nextRetryAt := at)],
            retries := map[id := 1]);
    assert Step(s, Retries(id, at), t);
  }

  lemma FirstClaim(id: string, endpointId: string, at: int) returns (s: State, t: State)
    ensures Step(State(map[], map[], map[]), Enqueues(id, endpointId, at), s)
      && Step(s, Claims(1, {id}, {endpointId}, at), t)
    ensures id in t.deliveries && t.deliveries[id].endpointId == endpointId && t.retries == map[]
      && t.holders.Keys == {(1, id)}
  {
    EnqueuesOne(id, endpointId, at);
    hide Step, Claimed;
    s := State(map[id := Delivery(endpointId, Pending, 0, at)], map[], map[]);
    t := Claimed(s, 1, id);
    ClaimsOne(s, 1, id, at);
  }

  lemma SecondClaim(s: State, id: string, at: int) returns (t: State, u: State)
    requires id in s.deliveries && s.retries == map[] && s.holders.Keys == {(1, id)}
    ensures Step(s, Retries(id, at), t) && Step(t, Claims(2, {id}, {s.deliveries[id].endpointId}, at), u)
    ensures Held(s, id) && (1, id) in u.holders && (2, id) in u.holders
  {
    hide Step, Claimed, Held;
    t := RetriesOne(s, id, at);
    ClaimsOne(t, 2, id, at);
    u := Claimed(t, 2, id);
  }

  /** Such a run: claimed, retried by hand during the attempt, and claimed by a second worker. */
  lemma RetryAdmitsASecondWorker(id: string, endpointId: string, at: int) returns (r: Run)
    ensures IsRun(r) && |r.states| == 5 && RetriedInHand(r.states[2], r.events[2], id)
    ensures (1, id) in r.states[4].holders && (2, id) in r.states[4].holders
  {
    hide Step, Held;
    var s1, s2 := FirstClaim(id, endpointId, at);
    var s3, s4 := SecondClaim(s2, id, at);
    r := Run([State(map[], map[], map[]), s1, s2, s3, s4],
             [Enqueues(id, endpointId, at), Claims(1, {id}, {endpointId}, at), Retries(id, at),
              Claims(2, {id}, {endpointId}, at)]);
    forall i | 0 <= i < |r.events| ensures Step(r.states[i], r.events[i], r.states[i + 1]) {
      assert i == 0 || i == 1 || i == 2 || i == 3;
    }
  }

  function Claimed(s: State, worker: nat, id: string): State
    requires id in s.deliveries
  {
    var d := s.deliveries[id];
    s.(deliveries := s.deliveries[id := d.(status := Processing, attempts := d.attempts + 1)],
       holders := s.holders[(worker, id) := None])
  }

  lemma ClaimsOne(s: State, worker: nat, id: string, at: int)
    requires id in s.deliveries && Due(s.deliveries[id], at) && (worker, id) !in s.holders
    ensures var t := Claimed(s, worker, id);
      && Step(s, Claims(worker, {id}, {s.deliveries[id].endpointId}, at), t)
      && id in t.deliveries && t.deliveries[id].endpointId == s.deliveries[id].endpointId && t.retries == s.retries
      && t.holders.Keys == s.holders.Keys + {(worker, id)}
  {
    var enabled := {s.deliveries[id].endpointId};
    assert Jobs(s.deliveries, {id}, enabled) == {id};
    assert Claim(s.deliveries, {id}, enabled) == Claimed(s, worker, id).deliveries;
    var added: map<(nat, string), Option<nat>> := map j | j in Jobs(s.deliveries, {id}, enabled) :: (worker, j) := None;
    assert added == map[(worker, id) := None];
    assert s.holders + added == Claimed(s, worker, id).holders;
  }
}
