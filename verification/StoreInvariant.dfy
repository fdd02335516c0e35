/** What holds of the store between any two operations, and that each operation keeps it. */
module StoreInvariant {
  import opened Domain
  import opened OrderIds
  import opened StoreModel

  type Orders = map<string, Order>
  type Mailboxes = map<string, Mailbox>

  // ---------------------------------------------------------------- the invariant

  ghost predicate Inv(s: State) {
    && Keyed(s)
    && Numbered(s.orders, s.seqNo)
    && LeaseCorrespondence(s.orders, s.mailboxes)
    && MoneyOk(s.orders, s.users)
    && RequestsUnique(s.orders)
    && PairsOk(s.orders, s.mailboxes)
  }

  predicate Keyed(s: State) {
    && (forall id :: id in s.services ==> s.services[id].id == id)
    && (forall id :: id in s.mailboxes ==> s.mailboxes[id].id == id)
    && (forall id :: id in s.orders ==> s.orders[id].id == id)
  }

  ghost predicate Issued(id: string, upTo: nat) {
    exists n: nat :: n <= upTo && id == OrderId(n)
  }

  ghost predicate Numbered(orders: Orders, seqNo: nat) {
    forall id :: id in orders ==> Issued(id, seqNo)
  }

  /** The order has its mailbox and its slot. */
  predicate Leases(o: Order, id: string, mailboxes: Mailboxes) {
    && o.mailboxId in mailboxes
    && var m := mailboxes[o.mailboxId];
    && m.activeOrderId == id && m.state == MailboxLeased
    && o.serviceId in m.services && m.services[o.serviceId].state == SlotLeased
  }

  /** Mailbox `id` is leased to an active order of its own. */
  predicate Held(orders: Orders, id: string, m: Mailbox) {
    && m.activeOrderId in orders && Active(orders[m.activeOrderId])
    && orders[m.activeOrderId].mailboxId == id
  }

  /** A mailbox or slot marked as leased is leased to an active order. */
  ghost predicate LeaseMarksOk(orders: Orders, id: string, m: Mailbox) {
    && (m.activeOrderId != "" || m.state == MailboxLeased ==> Held(orders, id, m))
    && (forall v :: v in m.services && m.services[v].state == SlotLeased
          ==> Held(orders, id, m) && orders[m.activeOrderId].serviceId == v)
  }

  ghost predicate LeaseCorrespondence(orders: Orders, mailboxes: Mailboxes) {
    && (forall id :: id in orders && Active(orders[id]) ==> Leases(orders[id], id, mailboxes))
    && (forall id :: id in mailboxes ==> LeaseMarksOk(orders, id, mailboxes[id]))
  }

  predicate RefundStatus(status: OrderStatus) {
    status == OrderCanceled || status == OrderExpiredRefunded
  }

  predicate OrderMoneyOk(o: Order, users: map<string, User>) {
    o.userId in users && o.price >= 0 && (o.refunded <==> RefundStatus(o.status))
  }

  ghost predicate MoneyOk(orders: Orders, users: map<string, User>) {
    && (forall u :: u in users ==> users[u].balance >= 0)
    && (forall id :: id in orders ==> OrderMoneyOk(orders[id], users))
  }

  ghost predicate RequestsUnique(orders: Orders) {
    forall a, b :: a in orders && b in orders && a != b && orders[a].requestId != ""
      ==> !SameRequest(orders[b], orders[a].userId, orders[a].requestId)
  }

  predicate OfPair(o: Order, mailboxId: string, serviceId: string) {
    o.mailboxId == mailboxId && o.serviceId == serviceId
  }

  function TimedOut(orders: Orders, mailboxId: string, serviceId: string): set<string> {
    set id | id in orders && OfPair(orders[id], mailboxId, serviceId) && orders[id].status == OrderExpiredRefunded
  }

  function Coded(orders: Orders, mailboxId: string, serviceId: string): set<string> {
    set id | id in orders && OfPair(orders[id], mailboxId, serviceId) && HasCode(orders[id])
  }

  ghost predicate PairBound(orders: Orders, mailboxId: string, serviceId: string) {
    |TimedOut(orders, mailboxId, serviceId)| + |Coded(orders, mailboxId, serviceId)| <= MAILBOX_SERVICE_TIMEOUT_LIMIT
  }

  ghost predicate SlotOk(orders: Orders, mailboxId: string, serviceId: string, slot: Slot) {
    && slot.timeoutCount == |TimedOut(orders, mailboxId, serviceId)|
    && (slot.state == SlotAvailable || slot.state == SlotLeased ==>
          |Coded(orders, mailboxId, serviceId)| == 0 && slot.timeoutCount < MAILBOX_SERVICE_TIMEOUT_LIMIT)
  }

  ghost predicate SlotsOk(orders: Orders, mailboxId: string, m: Mailbox) {
    forall v :: v in m.services ==> SlotOk(orders, mailboxId, v, m.services[v])
  }

  ghost predicate PairsOk(orders: Orders, mailboxes: Mailboxes) {
    && (forall m, v :: PairBound(orders, m, v))
    && (forall m :: m in mailboxes ==> SlotsOk(orders, m, mailboxes[m]))
  }

  lemma EmptyNotIssued(orders: Orders, seqNo: nat)
    requires Numbered(orders, seqNo)
    ensures "" !in orders
  {
    forall id | id in orders ensures id != "" {
      assert Issued(id, seqNo);
      var n: nat :| n <= seqNo && id == OrderId(n);
      OrderIdInjective(n, n);
    }
  }

  /** What the invariant says of one active order: its lease, its money, and that no second mailbox carries it. */
  lemma ActiveOrder(s: State, id: string)
    requires Inv(s) && id in s.orders && Active(s.orders[id])
    ensures id != "" && s.orders[id].id == id
    ensures Leases(s.orders[id], id, s.mailboxes)
    ensures OrderMoneyOk(s.orders[id], s.users)
    ensures forall b :: b in s.mailboxes && s.mailboxes[b].activeOrderId == id ==> b == s.orders[id].mailboxId
  {
    EmptyNotIssued(s.orders, s.seqNo);
    forall b | b in s.mailboxes && s.mailboxes[b].activeOrderId == id ensures b == s.orders[id].mailboxId {
      assert LeaseMarksOk(s.orders, b, s.mailboxes[b]);
    }
  }

  // ---------------------------------------------------------------- ending a lease

  predicate SameIdentity(a: Order, b: Order) {
    && a.id == b.id && a.userId == b.userId && a.serviceId == b.serviceId && a.mailboxId == b.mailboxId
    && a.price == b.price && a.requestId == b.requestId && a.createdAt == b.createdAt && a.assignedAt == b.assignedAt
    && a.submittedAt == b.submittedAt && a.expiresAt == b.expiresAt
  }

  /** What becomes of the slot when the order that leases it ends with `status`. */
  function EndSlot(slot: Slot, status: OrderStatus): Slot {
    match status
    case OrderCodeReceived => slot.(state := SlotConsumed)
    case OrderExpiredRefunded =>
      Slot(if slot.timeoutCount + 1 < MAILBOX_SERVICE_TIMEOUT_LIMIT then SlotAvailable
           else SlotConsumed, slot.timeoutCount + 1)
    case _ => slot.(state := SlotAvailable)
  }

  /** The one shape of every end of a lease: code, cancellation, timeout or failed verification. */
  predicate EndsLease(was: Order, o: Order, held: Mailbox, m: Mailbox) {
    && Active(was) && SameIdentity(was, o)
    && (o.status == OrderCodeReceived || RefundStatus(o.status))
    && (o.refunded <==> RefundStatus(o.status))
    && m.id == held.id && m.activeOrderId == "" && m.state != MailboxLeased
    && o.serviceId in held.services
    && m.services == held.services[o.serviceId := EndSlot(held.services[o.serviceId], o.status)]
  }

  function EndOrder(s: State, id: string, o: Order, m: Mailbox): State
    requires o.userId in s.users
  {
    var user := s.users[o.userId];
    s.(orders := s.orders[id := o],
       mailboxes := s.mailboxes[o.mailboxId := m],
       users := if o.refunded then s.users[o.userId := user.(balance := user.balance + o.price)] else s.users)
  }

  lemma EndKeepsLeases(orders: Orders, mailboxes: Mailboxes, id: string, o: Order, m: Mailbox)
    requires LeaseCorrespondence(orders, mailboxes) && id in orders && o.mailboxId in mailboxes
    requires EndsLease(orders[id], o, mailboxes[o.mailboxId], m)
    ensures LeaseCorrespondence(orders[id := o], mailboxes[o.mailboxId := m])
  {
    var held := mailboxes[o.mailboxId];
    assert Leases(orders[id], id, mailboxes);
    assert LeaseMarksOk(orders, o.mailboxId, held);
    assert LeaseMarksOk(orders[id := o], o.mailboxId, m);
    forall b | b in mailboxes && b != o.mailboxId ensures LeaseMarksOk(orders[id := o], b, mailboxes[b]) {
      assert LeaseMarksOk(orders, b, mailboxes[b]);
    }
    forall other | other in orders && other != id && Active(orders[other])
      ensures Leases(orders[other], other, mailboxes[o.mailboxId := m])
    {
      assert Leases(orders[other], other, mailboxes);
    }
  }

  /** An active order counts for no pair; once it ends it counts for its own pair only. */
  lemma PairChange(orders: Orders, id: string, o: Order, m: string, v: string)
    requires id in orders && Active(orders[id]) && SameIdentity(orders[id], o)
    ensures |TimedOut(orders[id := o], m, v)|
         == |TimedOut(orders, m, v)| + if OfPair(o, m, v) && o.status == OrderExpiredRefunded then 1 else 0
    ensures |Coded(orders[id := o], m, v)|
         == |Coded(orders, m, v)| + if OfPair(o, m, v) && HasCode(o) then 1 else 0
  {
    var timedOut := TimedOut(orders, m, v);
    if OfPair(o, m, v) && o.status == OrderExpiredRefunded {
      assert TimedOut(orders[id := o], m, v) == timedOut + {id};
    } else {
      assert TimedOut(orders[id := o], m, v) == timedOut;
    }
    var coded := Coded(orders, m, v);
    if OfPair(o, m, v) && HasCode(o) {
      assert Coded(orders[id := o], m, v) == coded + {id};
    } else {
      assert Coded(orders[id := o], m, v) == coded;
    }
  }

  lemma EndKeepsPair(orders: Orders, mailboxes: Mailboxes, id: string, o: Order, m: Mailbox, b: string, v: string)
    requires PairsOk(orders, mailboxes) && id in orders && Leases(orders[id], id, mailboxes)
    requires o.mailboxId in mailboxes && EndsLease(orders[id], o, mailboxes[o.mailboxId], m)
    ensures PairBound(orders[id := o], b, v)
    ensures b in mailboxes && b != o.mailboxId && v in mailboxes[b].services
        ==> SlotOk(orders[id := o], b, v, mailboxes[b].services[v])
    ensures b == o.mailboxId && v in m.services ==> SlotOk(orders[id := o], b, v, m.services[v])
  {
    PairChange(orders, id, o, b, v);
    assert PairBound(orders, b, v);
    if b in mailboxes && v in mailboxes[b].services {
      assert SlotsOk(orders, b, mailboxes[b]);
      assert SlotOk(orders, b, v, mailboxes[b].services[v]);
    }
  }

  lemma EndKeepsPairs(orders: Orders, mailboxes: Mailboxes, id: string, o: Order, m: Mailbox)
    requires PairsOk(orders, mailboxes) && id in orders && Leases(orders[id], id, mailboxes)
    requires o.mailboxId in mailboxes && EndsLease(orders[id], o, mailboxes[o.mailboxId], m)
    ensures PairsOk(orders[id := o], mailboxes[o.mailboxId := m])
  {
    var after := orders[id := o];
    forall b, v ensures PairBound(after, b, v) {
      EndKeepsPair(orders, mailboxes, id, o, m, b, v);
    }
    forall b | b in mailboxes && b != o.mailboxId ensures SlotsOk(after, b, mailboxes[b]) {
      forall v | v in mailboxes[b].services ensures SlotOk(after, b, v, mailboxes[b].services[v]) {
        EndKeepsPair(orders, mailboxes, id, o, m, b, v);
      }
    }
    forall v | v in m.services ensures SlotOk(after, o.mailboxId, v, m.services[v]) {
      EndKeepsPair(orders, mailboxes, id, o, m, o.mailboxId, v);
    }
  }

  lemma EndKeepsRequests(orders: Orders, id: string, o: Order)
    requires RequestsUnique(orders) && id in orders && SameIdentity(orders[id], o)
    ensures RequestsUnique(orders[id := o])
  {
    var after := orders[id := o];
    forall a, b | a in after && b in after && a != b && after[a].requestId != ""
      ensures !SameRequest(after[b], after[a].userId, after[a].requestId)
    {
      assert !SameRequest(orders[b], orders[a].userId, orders[a].requestId);
    }
  }

  lemma EndKeepsMoney(orders: Orders, users: map<string, User>, id: string, o: Order)
    requires MoneyOk(orders, users) && id in orders && OrderMoneyOk(o, users)
    ensures MoneyOk(orders[id := o], users)
    ensures var user := users[o.userId];
      MoneyOk(orders[id := o], users[o.userId := user.(balance := user.balance + o.price)])
  {
    var user := users[o.userId];
    var paid := users[o.userId := user.(balance := user.balance + o.price)];
    forall k | k in orders && k != id ensures OrderMoneyOk(orders[k], paid) {
      assert OrderMoneyOk(orders[k], users);
    }
  }

  lemma EndKeepsNumbers(orders: Orders, seqNo: nat, id: string, o: Order)
    requires Numbered(orders, seqNo) && id in orders
    ensures Numbered(orders[id := o], seqNo)
  {
  }

  /** Ending a lease, in whichever way, keeps every part of the invariant. */
  lemma EndKeepsInv(s: State, id: string, o: Order, m: Mailbox)
    requires Inv(s) && id in s.orders && o.mailboxId in s.mailboxes
    requires EndsLease(s.orders[id], o, s.mailboxes[o.mailboxId], m)
    ensures o.userId in s.users && Inv(EndOrder(s, id, o, m))
  {
    hide LeaseCorrespondence, PairsOk, RequestsUnique, MoneyOk, Numbered;
    ActiveOrder(s, id);
    EndKeepsMoney(s.orders, s.users, id, o);
    EndKeepsNumbers(s.orders, s.seqNo, id, o);
    EndKeepsLeases(s.orders, s.mailboxes, id, o, m);
    EndKeepsPairs(s.orders, s.mailboxes, id, o, m);
    EndKeepsRequests(s.orders, id, o);
  }

  // ---------------------------------------------------------------- creating an order

  predicate CanLease(s: State, userId: string, serviceId: string, requestId: string, raw: seq<string>,
                           mailboxId: string, now: int)
  {
    && RefusalBeforeLookup(s, userId, serviceId, raw).None?
    && !AlreadyRequested(s, userId, requestId)
    && Funded(s, userId, serviceId, raw)
    && mailboxId in s.mailboxes
    && Eligible(s.mailboxes[mailboxId], serviceId, Distinct(Normalized(raw)), now)
  }

  lemma {:induction false} DistinctElements(s: seq<string>)
    ensures forall p :: p in Distinct(s) <==> p in s
    ensures forall i, j :: 0 <= i < j < |Distinct(s)| ==> Distinct(s)[i] != Distinct(s)[j]
  {
    if s != [] {
      DistinctElements(s[..|s| - 1]);
      assert s == s[..|s| - 1] + [s[|s| - 1]];
    }
  }

  /** A provider kept in the request is one of the requested ones: supported, priced and affordable. */
  lemma RequestedProviderPriced(service: Service, raw: seq<string>, p: string)
    requires ValidProviders(service, raw)
    requires p in Distinct(Normalized(raw))
    ensures ProviderOk(service, p)
    ensures exists i :: 0 <= i < |raw| && p == Normalize(raw[i])
  {
    DistinctElements(Normalized(raw));
    var i :| 0 <= i < |raw| && Normalized(raw)[i] == p;
    assert Normalize(raw[i]) == p;
  }

  lemma NextIdIsFresh(orders: Orders, seqNo: nat)
    requires Numbered(orders, seqNo)
    ensures OrderId(seqNo + 1) !in orders
    ensures OrderId(seqNo + 1) != "" && "" !in orders
  {
    OrderIdInjective(seqNo + 1, 0);
    forall id | id in orders ensures id != "" && id != OrderId(seqNo + 1) {
      assert Issued(id, seqNo);
      var n: nat :| n <= seqNo && id == OrderId(n);
      OrderIdInjective(n, seqNo + 1);
    }
  }

  lemma LeaseDefined(s: State, userId: string, serviceId: string, requestId: string, raw: seq<string>,
                     mailboxId: string, now: int)
    requires Keyed(s) && CanLease(s, userId, serviceId, requestId, raw, mailboxId, now)
    ensures s.services[serviceId].id == serviceId && s.mailboxes[mailboxId].id == mailboxId
    ensures ProviderOk(s.services[serviceId], s.mailboxes[mailboxId].provider)
    ensures s.services[serviceId].providerPrices[s.mailboxes[mailboxId].provider] <= s.users[userId].balance
  {
    RequestedProviderPriced(s.services[serviceId], raw, s.mailboxes[mailboxId].provider);
  }

  /** How the maps change when `o` leases mailbox `o.mailboxId`. */
  predicate StartsLease(orders: Orders, mailboxes: Mailboxes, o: Order, m: Mailbox) {
    && o.id !in orders && Active(o) && !o.refunded && o.price >= 0
    && o.mailboxId in mailboxes
    && var free := mailboxes[o.mailboxId];
    && free.activeOrderId == "" && SlotOpen(free, o.serviceId)
    && m == free.(state := MailboxLeased, activeOrderId := o.id,
                  services := free.services[o.serviceId := free.services[o.serviceId].(state := SlotLeased)])
  }

  lemma StartKeepsLeases(orders: Orders, mailboxes: Mailboxes, o: Order, m: Mailbox)
    requires LeaseCorrespondence(orders, mailboxes) && StartsLease(orders, mailboxes, o, m)
    requires "" !in orders
    ensures LeaseCorrespondence(orders[o.id := o], mailboxes[o.mailboxId := m])
  {
    var free := mailboxes[o.mailboxId];
    assert LeaseMarksOk(orders, o.mailboxId, free);
    assert LeaseMarksOk(orders[o.id := o], o.mailboxId, m);
    forall b | b in mailboxes && b != o.mailboxId ensures LeaseMarksOk(orders[o.id := o], b, mailboxes[b]) {
      assert LeaseMarksOk(orders, b, mailboxes[b]);
    }
    forall other | other in orders && Active(orders[other])
      ensures Leases(orders[other], other, mailboxes[o.mailboxId := m])
    {
      assert Leases(orders[other], other, mailboxes);
    }
  }

  lemma StartKeepsPair(orders: Orders, o: Order, m: string, v: string)
    requires o.id !in orders && Active(o)
    ensures TimedOut(orders[o.id := o], m, v) == TimedOut(orders, m, v)
    ensures Coded(orders[o.id := o], m, v) == Coded(orders, m, v)
  {
  }

  lemma StartKeepsPairs(orders: Orders, mailboxes: Mailboxes, o: Order, m: Mailbox)
    requires PairsOk(orders, mailboxes) && StartsLease(orders, mailboxes, o, m)
    ensures PairsOk(orders[o.id := o], mailboxes[o.mailboxId := m])
  {
    var after := orders[o.id := o];
    forall b, v ensures PairBound(after, b, v) {
      assert PairBound(orders, b, v);
      StartKeepsPair(orders, o, b, v);
    }
    var boxes := mailboxes[o.mailboxId := m];
    forall b | b in boxes ensures SlotsOk(after, b, boxes[b]) {
      assert SlotsOk(orders, b, mailboxes[b]);
      forall v | v in boxes[b].services ensures SlotOk(after, b, v, boxes[b].services[v]) {
        assert SlotOk(orders, b, v, mailboxes[b].services[v]);
        StartKeepsPair(orders, o, b, v);
      }
    }
  }

  lemma StartKeepsNumbers(orders: Orders, seqNo: nat, o: Order)
    requires Numbered(orders, seqNo) && o.id == OrderId(seqNo + 1)
    ensures Numbered(orders[o.id := o], seqNo + 1)
  {
    forall id | id in orders ensures Issued(id, seqNo + 1) {
      assert Issued(id, seqNo);
      var n: nat :| n <= seqNo && id == OrderId(n);
      assert n <= seqNo + 1 && id == OrderId(n);
    }
  }

  lemma StartKeepsRequests(orders: Orders, o: Order)
    requires RequestsUnique(orders) && o.id !in orders
    requires o.requestId == "" || forall id :: id in orders ==> !SameRequest(orders[id], o.userId, o.requestId)
    ensures RequestsUnique(orders[o.id := o])
  {
  }

  lemma StartKeepsMoney(orders: Orders, users: map<string, User>, o: Order, user: User)
    requires MoneyOk(orders, users) && OrderMoneyOk(o, users) && user.balance >= 0
    ensures MoneyOk(orders[o.id := o], users[o.userId := user])
  {
    forall id | id in orders && id != o.id ensures OrderMoneyOk(orders[id], users[o.userId := user]) {
      assert OrderMoneyOk(orders[id], users);
    }
  }

  lemma LeaseShape(s: State, userId: string, serviceId: string, requestId: string, raw: seq<string>,
                   mailboxId: string, now: int) returns (o: Order, m: Mailbox, user: User)
    requires Keyed(s) && Numbered(s.orders, s.seqNo)
    requires CanLease(s, userId, serviceId, requestId, raw, mailboxId, now)
    ensures s.mailboxes[mailboxId].provider in s.services[serviceId].providerPrices
    ensures s.services[serviceId].id == serviceId
    ensures o == NewOrder(s, userId, s.services[serviceId], requestId, Distinct(Normalized(raw)),
                          s.mailboxes[mailboxId], now)
    ensures o.id == OrderId(s.seqNo + 1) && o.mailboxId == mailboxId && o.userId == userId && o.requestId == requestId
    ensures StartsLease(s.orders, s.mailboxes, o, m) && m.id == mailboxId
    ensures user == s.users[userId].(balance := s.users[userId].balance - o.price) && user.balance >= 0
    ensures Lease(s, userId, serviceId, requestId, Distinct(Normalized(raw)), mailboxId, now)
         == s.(orders := s.orders[o.id := o], mailboxes := s.mailboxes[mailboxId := m],
               users := s.users[userId := user], seqNo := s.seqNo + 1)
  {
    LeaseDefined(s, userId, serviceId, requestId, raw, mailboxId, now);
    NextIdIsFresh(s.orders, s.seqNo);
    o, m, user := LeaseOn(s, userId, serviceId, requestId, Distinct(Normalized(raw)), mailboxId, now);
  }

  lemma LeaseOn(s: State, userId: string, serviceId: string, requestId: string, providers: seq<string>,
                mailboxId: string, now: int) returns (o: Order, m: Mailbox, user: User)
    requires userId in s.users && serviceId in s.services && mailboxId in s.mailboxes
    requires s.services[serviceId].id == serviceId && s.mailboxes[mailboxId].id == mailboxId
    requires Free(s.mailboxes[mailboxId], now) && SlotOpen(s.mailboxes[mailboxId], serviceId)
    requires ProviderOk(s.services[serviceId], s.mailboxes[mailboxId].provider)
    requires OrderId(s.seqNo + 1) !in s.orders
    ensures o == NewOrder(s, userId, s.services[serviceId], requestId, providers, s.mailboxes[mailboxId], now)
    ensures StartsLease(s.orders, s.mailboxes, o, m) && m.id == mailboxId
    ensures user == s.users[userId].(balance := s.users[userId].balance - o.price)
    ensures Lease(s, userId, serviceId, requestId, providers, mailboxId, now)
         == s.(orders := s.orders[o.id := o], mailboxes := s.mailboxes[mailboxId := m],
               users := s.users[userId := user], seqNo := s.seqNo + 1)
  {
    var t := Lease(s, userId, serviceId, requestId, providers, mailboxId, now);
    o, m, user := t.orders[OrderId(s.seqNo + 1)], t.mailboxes[mailboxId], t.users[userId];
  }

  lemma StartKeepsInv(s: State, o: Order, m: Mailbox, user: User)
    requires Inv(s) && StartsLease(s.orders, s.mailboxes, o, m) && m.id == o.mailboxId && o.id == OrderId(s.seqNo + 1)
    requires o.requestId == "" || forall id :: id in s.orders ==> !SameRequest(s.orders[id], o.userId, o.requestId)
    requires OrderMoneyOk(o, s.users) && user.balance >= 0
    ensures Inv(s.(orders := s.orders[o.id := o], mailboxes := s.mailboxes[o.mailboxId := m],
                   users := s.users[o.userId := user], seqNo := s.seqNo + 1))
  {
    NextIdIsFresh(s.orders, s.seqNo);
    StartKeepsLeases(s.orders, s.mailboxes, o, m);
    StartKeepsPairs(s.orders, s.mailboxes, o, m);
    StartKeepsNumbers(s.orders, s.seqNo, o);
    StartKeepsRequests(s.orders, o);
    StartKeepsMoney(s.orders, s.users, o, user);
  }

  /** Creating an order on an eligible mailbox keeps every part of the invariant. */
  lemma LeaseKeepsInv(s: State, userId: string, serviceId: string, requestId: string, raw: seq<string>,
                      mailboxId: string, now: int)
    requires Inv(s) && CanLease(s, userId, serviceId, requestId, raw, mailboxId, now)
    ensures s.mailboxes[mailboxId].provider in s.services[serviceId].providerPrices
    ensures s.services[serviceId].id == serviceId
    ensures Inv(Lease(s, userId, serviceId, requestId, Distinct(Normalized(raw)), mailboxId, now))
  {
    var o, m, user := LeaseShape(s, userId, serviceId, requestId, raw, mailboxId, now);
    StartKeepsInv(s, o, m, user);
  }
}
