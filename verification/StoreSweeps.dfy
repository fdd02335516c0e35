/** ReapExpired and ReconcileInvalidMailboxOrders walk the order map in whatever order Go hands out.
    `Sweep` is what they amount to, stated at once for a whole set of orders. */
module StoreSweeps {
  import opened Domain
  import opened Totals
  import opened StoreModel
  import opened StoreInvariant

  // ---------------------------------------------------------------- the two sweeps

  datatype Kind = Timeouts(now: int) | BadMailboxes

  predicate Qualifies(s: State, k: Kind, id: string)
    requires id in s.orders
  {
    match k
    case Timeouts(now) => Overdue(s.orders[id], now)
    case BadMailboxes => OnUnverifiedMailbox(s, id)
  }

  function Qualifying(s: State, k: Kind): set<string> {
    set id | id in s.orders && Qualifies(s, k, id)
  }

  function SweepOne(s: State, k: Kind, id: string): State
    requires id in s.orders && Qualifies(s, k, id)
  {
    if k.BadMailboxes? then Invalidate(s, id) else Expire(s, id)
  }

  function SweptOrder(o: Order, k: Kind): Order {
    o.(status := OrderExpiredRefunded, refunded := true,
       failureReason := if k.BadMailboxes? then UNVERIFIED_REASON else o.failureReason)
  }

  function SweptMailbox(m: Mailbox, serviceId: string, k: Kind): Mailbox {
    var released := ReleaseMailbox(m, serviceId, true);
    if k.BadMailboxes? then released.(state := MailboxError, healthScore := 0) else released
  }

  /** The prices of the orders among `ids` that belong to `userId`. */
  function Refunds(orders: Orders, ids: set<string>, userId: string): map<string, int> {
    map id | id in ids && id in orders && orders[id].userId == userId :: orders[id].price
  }

  /** All orders in `ids` at once: each is refunded, its mailbox found through the lease mark. */
  ghost function Sweep(s: State, k: Kind, ids: set<string>): (t: State)
    ensures t.orders.Keys == s.orders.Keys && t.mailboxes.Keys == s.mailboxes.Keys && t.users.Keys == s.users.Keys
  {
    s.(orders := SweepOrders(s, k, ids), mailboxes := SweepMailboxes(s, k, ids), users := SweepUsers(s, ids))
  }

  function SweepOrders(s: State, k: Kind, ids: set<string>): Orders {
    map id | id in s.orders :: if id in ids then SweptOrder(s.orders[id], k) else s.orders[id]
  }

  ghost function SweepUsers(s: State, ids: set<string>): map<string, User> {
    map u | u in s.users :: s.users[u].(balance := s.users[u].balance + RefundTotal(s.orders, ids, u))
  }

  function SweepMailboxes(s: State, k: Kind, ids: set<string>): Mailboxes {
    map b | b in s.mailboxes ::
      var m := s.mailboxes[b];
      if m.activeOrderId in ids && m.activeOrderId in s.orders
      then SweptMailbox(m, s.orders[m.activeOrderId].serviceId, k)
      else m
  }

  ghost function RefundTotal(orders: Orders, ids: set<string>, userId: string): int {
    Total(Refunds(orders, ids, userId))
  }

  lemma RefundsGrow(orders: Orders, ids: set<string>, more: set<string>, id: string, u: string)
    requires id in orders && id !in ids && more == ids + {id}
    ensures orders[id].userId == u ==> RefundTotal(orders, more, u) == RefundTotal(orders, ids, u) + orders[id].price
    ensures orders[id].userId != u ==> RefundTotal(orders, more, u) == RefundTotal(orders, ids, u)
  {
    var before := Refunds(orders, ids, u);
    var after := Refunds(orders, more, u);
    if orders[id].userId == u {
      assert after == before[id := orders[id].price];
      TotalAdd(before, id, orders[id].price);
    } else {
      assert after == before;
    }
  }

  lemma NoRefunds(orders: Orders, ids: set<string>, u: string)
    requires forall id :: id in ids && id in orders ==> orders[id].userId != u
    ensures RefundTotal(orders, ids, u) == 0
  {
    assert Refunds(orders, ids, u) == map[];
  }

  lemma SweepNothing(s: State, k: Kind)
    ensures Sweep(s, k, {}) == s
  {
    forall u ensures Refunds(s.orders, {}, u) == map[] { }
    assert Sweep(s, k, {}).orders == s.orders;
    assert Sweep(s, k, {}).mailboxes == s.mailboxes;
    assert Sweep(s, k, {}).users == s.users;
  }

  /** Because leases are one-to-one, sweeping one more order touches a mailbox no other order's sweep touches. */
  lemma SweepMailboxStep(s: State, k: Kind, ids: set<string>, id: string)
    requires id in s.orders && id !in ids && Leases(s.orders[id], id, s.mailboxes)
    requires forall b :: b in s.mailboxes && s.mailboxes[b].activeOrderId == id ==> b == s.orders[id].mailboxId
    ensures var b := s.orders[id].mailboxId;
      && SweepMailboxes(s, k, ids)[b] == s.mailboxes[b]
      && SweepMailboxes(s, k, ids + {id})
         == SweepMailboxes(s, k, ids)[b := SweptMailbox(s.mailboxes[b], s.orders[id].serviceId, k)]
  {
  }

  lemma SweepUserStep(s: State, ids: set<string>, more: set<string>, id: string)
    requires id in s.orders && id !in ids && s.orders[id].userId in s.users && more == ids + {id}
    ensures var users := SweepUsers(s, ids); var u := s.orders[id].userId;
      SweepUsers(s, more) == users[u := users[u].(balance := users[u].balance + s.orders[id].price)]
  {
    hide RefundTotal;
    var payee := s.orders[id].userId;
    RefundsGrow(s.orders, ids, more, id, payee);
    forall u | u in s.users && u != payee
      ensures RefundTotal(s.orders, more, u) == RefundTotal(s.orders, ids, u)
    {
      RefundsGrow(s.orders, ids, more, id, u);
    }
  }

  lemma SweepOrderStep(s: State, k: Kind, ids: set<string>, id: string)
    requires id in s.orders && id !in ids
    ensures SweepOrders(s, k, ids + {id}) == SweepOrders(s, k, ids)[id := SweptOrder(s.orders[id], k)]
  {
  }

  lemma SweepKeepsQualification(s: State, k: Kind, ids: set<string>, id: string)
    requires id in s.orders && id !in ids
    ensures Qualifies(Sweep(s, k, ids), k, id) <==> Qualifies(s, k, id)
  {
  }

  lemma OneAmounts(t: State, k: Kind, id: string)
    requires id in t.orders && Qualifies(t, k, id) && Leases(t.orders[id], id, t.mailboxes)
    requires OrderMoneyOk(t.orders[id], t.users)
    ensures var o := t.orders[id]; var user := t.users[o.userId];
      SweepOne(t, k, id) == t.(
        orders := t.orders[id := SweptOrder(o, k)],
        mailboxes := t.mailboxes[o.mailboxId := SweptMailbox(t.mailboxes[o.mailboxId], o.serviceId, k)],
        users := t.users[o.userId := user.(balance := user.balance + o.price)])
  {
  }

  /** One turn of the loop, from a state in which `ids` were already swept. */
  lemma SweepStep(s: State, k: Kind, ids: set<string>, id: string)
    requires Inv(s) && id in s.orders && id !in ids && Qualifies(s, k, id)
    ensures Qualifies(Sweep(s, k, ids), k, id)
    ensures SweepOne(Sweep(s, k, ids), k, id) == Sweep(s, k, ids + {id})
  {
    ActiveOrder(s, id);
    SweepKeepsQualification(s, k, ids, id);
    SweepLeasedOrder(s, k, ids, ids + {id}, id);
  }

  lemma SweepLeasedOrder(s: State, k: Kind, ids: set<string>, more: set<string>, id: string)
    requires id in s.orders && id !in ids && more == ids + {id}
    requires Leases(s.orders[id], id, s.mailboxes) && OrderMoneyOk(s.orders[id], s.users)
    requires forall b :: b in s.mailboxes && s.mailboxes[b].activeOrderId == id ==> b == s.orders[id].mailboxId
    requires Qualifies(Sweep(s, k, ids), k, id)
    ensures SweepOne(Sweep(s, k, ids), k, id) == Sweep(s, k, more)
  {
    hide SweepOne, SweepUsers, SweepMailboxes, SweepOrders, Qualifies, Leases;
    SweepMailboxStep(s, k, ids, id);
    SweepUserStep(s, ids, more, id);
    SweepOrderStep(s, k, ids, id);
    OneAfterOthers(s, k, ids, id);
  }

  lemma OneAfterOthers(s: State, k: Kind, ids: set<string>, id: string)
    requires id in s.orders && id !in ids && Leases(s.orders[id], id, s.mailboxes)
    requires OrderMoneyOk(s.orders[id], s.users) && Qualifies(Sweep(s, k, ids), k, id)
    requires SweepMailboxes(s, k, ids)[s.orders[id].mailboxId] == s.mailboxes[s.orders[id].mailboxId]
    ensures var o := s.orders[id]; var t := Sweep(s, k, ids); var user := t.users[o.userId];
      SweepOne(t, k, id) == s.(
        orders := t.orders[id := SweptOrder(o, k)],
        mailboxes := t.mailboxes[o.mailboxId := SweptMailbox(s.mailboxes[o.mailboxId], o.serviceId, k)],
        users := t.users[o.userId := user.(balance := user.balance + o.price)])
  {
    OneAmounts(Sweep(s, k, ids), k, id);
  }

  // ---------------------------------------------------------------- what the sweeps guarantee

  lemma SweepOneEnds(s: State, k: Kind, id: string)
    requires id in s.orders && Qualifies(s, k, id) && Leases(s.orders[id], id, s.mailboxes)
    requires OrderMoneyOk(s.orders[id], s.users)
    ensures var o := SweptOrder(s.orders[id], k); var held := s.mailboxes[o.mailboxId];
      var m := SweptMailbox(held, o.serviceId, k);
      EndsLease(s.orders[id], o, held, m) && SweepOne(s, k, id) == EndOrder(s, id, o, m)
  {
    OneAmounts(s, k, id);
  }

  lemma SweepOneKeepsInv(s: State, k: Kind, id: string)
    requires Inv(s) && id in s.orders && Qualifies(s, k, id)
    ensures Inv(SweepOne(s, k, id))
  {
    ActiveOrder(s, id);
    SweepOneEnds(s, k, id);
    var o := SweptOrder(s.orders[id], k);
    EndKeepsInv(s, id, o, SweptMailbox(s.mailboxes[o.mailboxId], o.serviceId, k));
  }

  lemma {:induction false} SweepKeepsInv(s: State, k: Kind, ids: set<string>)
    requires Inv(s) && ids <= Qualifying(s, k)
    ensures Inv(Sweep(s, k, ids))
    decreases |ids|
  {
    hide Inv;
    SweepNothing(s, k);
    if ids != {} {
      var id :| id in ids;
      var rest := ids - {id};
      SweepKeepsInv(s, k, rest);
      SweepStep(s, k, rest, id);
      SweepOneKeepsInv(Sweep(s, k, rest), k, id);
      assert rest + {id} == ids;
    }
  }

  /** The loop itself, walking the orders in the order `walk` and counting what it sweeps. */
  function SweepAlong(s: State, k: Kind, walk: seq<string>): (State, nat)
    decreases |walk|
  {
    if walk == [] then (s, 0)
    else if walk[0] in s.orders && Qualifies(s, k, walk[0]) then
      var rest := SweepAlong(SweepOne(s, k, walk[0]), k, walk[1..]);
      (rest.0, rest.1 + 1)
    else SweepAlong(s, k, walk[1..])
  }

  ghost predicate NoRepeats(walk: seq<string>) {
    forall i, j :: 0 <= i < j < |walk| ==> walk[i] != walk[j]
  }

  function InWalk(ids: set<string>, walk: seq<string>): set<string> {
    set id | id in ids && id in walk
  }

  /** The orders swept when the keys in `pending` are still to be visited. */
  function SweptSoFar(s: State, k: Kind, pending: set<string>): set<string> {
    Qualifying(s, k) - pending
  }

  lemma NothingSwept(s: State, k: Kind)
    ensures SweptSoFar(s, k, s.orders.Keys) == {}
  {
  }

  lemma AllSwept(s: State, k: Kind)
    ensures SweptSoFar(s, k, {}) == Qualifying(s, k)
  {
  }

  /** One turn of the loop, `id` having just been taken from the pending keys. */
  lemma SweepTurn(s: State, k: Kind, before: set<string>, pending: set<string>, id: string)
    requires Inv(s) && id in s.orders && id in before && pending == before - {id}
    ensures var t := Sweep(s, k, SweptSoFar(s, k, before));
      if Qualifies(t, k, id)
      then SweepOne(t, k, id) == Sweep(s, k, SweptSoFar(s, k, pending))
           && |SweptSoFar(s, k, pending)| == |SweptSoFar(s, k, before)| + 1
      else SweptSoFar(s, k, pending) == SweptSoFar(s, k, before)
  {
    hide Inv, Sweep, SweepOne, Qualifies;
    var swept := SweptSoFar(s, k, before);
    SweepKeepsQualification(s, k, swept, id);
    if id in Qualifying(s, k) {
      SweepStep(s, k, swept, id);
      assert SweptSoFar(s, k, pending) == swept + {id};
    } else {
      assert SweptSoFar(s, k, pending) == swept;
    }
  }

  lemma InEmptyWalk(ids: set<string>, done: set<string>)
    ensures InWalk(ids, []) == {} && done + InWalk(ids, []) == done
  {
  }

  lemma InWalkHead(ids: set<string>, done: set<string>, walk: seq<string>)
    requires walk != [] && NoRepeats(walk)
    ensures NoRepeats(walk[1..]) && walk[0] !in walk[1..]
    ensures walk[0] in ids ==> InWalk(ids, walk) == InWalk(ids, walk[1..]) + {walk[0]}
    ensures walk[0] in ids ==> |InWalk(ids, walk)| == |InWalk(ids, walk[1..])| + 1
    ensures walk[0] in ids ==> done + {walk[0]} + InWalk(ids, walk[1..]) == done + InWalk(ids, walk)
    ensures walk[0] !in ids ==> InWalk(ids, walk) == InWalk(ids, walk[1..])
  {
    assert walk == [walk[0]] + walk[1..];
    if walk[0] in ids {
      assert InWalk(ids, walk) == InWalk(ids, walk[1..]) + {walk[0]};
    } else {
      assert InWalk(ids, walk) == InWalk(ids, walk[1..]);
    }
  }

  lemma {:induction false} SweepAlongFrom(s: State, k: Kind, done: set<string>, walk: seq<string>)
    requires Inv(s) && done <= Qualifying(s, k) && NoRepeats(walk)
    requires forall id :: id in walk ==> id in s.orders && id !in done
    ensures SweepAlong(Sweep(s, k, done), k, walk)
         == (Sweep(s, k, done + InWalk(Qualifying(s, k), walk)), |InWalk(Qualifying(s, k), walk)|)
    decreases |walk|
  {
    hide Inv, Sweep, SweepOne, Qualifies, InWalk;
    var q := Qualifying(s, k);
    if walk == [] {
      InEmptyWalk(q, done);
    } else {
      var id := walk[0];
      InWalkHead(q, done, walk);
      SweepKeepsQualification(s, k, done, id);
      if id in q {
        SweepStep(s, k, done, id);
        SweepAlongFrom(s, k, done + {id}, walk[1..]);
      } else {
        SweepAlongFrom(s, k, done, walk[1..]);
      }
    }
  }

  /** Whatever order the map hands its keys out in, the sweep ends in the same state with the same count:
      exactly the orders that qualified at the start are swept. */
  lemma SweepIgnoresWalk(s: State, k: Kind, walk: seq<string>)
    requires Inv(s) && NoRepeats(walk) && (forall id :: id in walk <==> id in s.orders)
    ensures SweepAlong(s, k, walk) == (Sweep(s, k, Qualifying(s, k)), |Qualifying(s, k)|)
  {
    hide Inv, Sweep, SweepOne, Qualifies;
    SweepNothing(s, k);
    SweepAlongFrom(s, k, {}, walk);
    assert {} + InWalk(Qualifying(s, k), walk) == Qualifying(s, k);
  }

  /** Nothing qualifies after a sweep, so sweeping again at the same instant changes nothing and counts 0. */
  lemma SweepTwice(s: State, k: Kind, walk: seq<string>)
    requires Inv(s) && NoRepeats(walk) && (forall id :: id in walk <==> id in s.orders)
    ensures var t := Sweep(s, k, Qualifying(s, k));
      Qualifying(t, k) == {} && SweepAlong(t, k, walk) == (t, 0)
  {
    hide Inv;
    var t := Sweep(s, k, Qualifying(s, k));
    assert Qualifying(t, k) == {};
    SweepKeepsInv(s, k, Qualifying(s, k));
    SweepIgnoresWalk(t, k, walk);
    SweepNothing(t, k);
  }

  /** A sweep leaves alone every order that does not qualify, every mailbox not leased to one that does,
      and every user without such an order. */
  lemma SweepTouchesOnly(s: State, k: Kind)
    requires Inv(s)
    ensures var q := Qualifying(s, k); var t := Sweep(s, k, q);
      && (forall id :: id in s.orders && id !in q ==> t.orders[id] == s.orders[id])
      && (forall id :: id in q ==> t.orders[id] == SweptOrder(s.orders[id], k))
      && (forall b :: b in s.mailboxes && s.mailboxes[b].activeOrderId !in q ==> t.mailboxes[b] == s.mailboxes[b])
      && (forall id :: id in q ==>
            && s.orders[id].mailboxId in s.mailboxes
            && t.mailboxes[s.orders[id].mailboxId]
               == SweptMailbox(s.mailboxes[s.orders[id].mailboxId], s.orders[id].serviceId, k))
      && (forall u :: u in s.users && (forall id :: id in q ==> s.orders[id].userId != u) ==> t.users[u] == s.users[u])
  {
    hide Inv;
    var q := Qualifying(s, k);
    hide RefundTotal, ReleaseMailbox;
    forall id | id in q
      ensures Leases(s.orders[id], id, s.mailboxes)
    {
      ActiveOrder(s, id);
    }
    forall u | u in s.users && (forall id :: id in q ==> s.orders[id].userId != u)
      ensures RefundTotal(s.orders, q, u) == 0
    {
      NoRefunds(s.orders, q, u);
    }
  }
}
